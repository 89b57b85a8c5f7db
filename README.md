# fotoapp and SYNARA addons — a Dafny model

This project models the business logic of a set of Odoo 18 addons, and proves properties about that model.

**fotoapp** is a marketplace where photographers sell event photos.
- Photographers subscribe to plans. Plan limits decide how many photos, albums and events they may keep, and how much storage.
- Subscriptions are billed monthly into debts. A debt is paid, falls into grace, or expires. Internal invoices are issued for it.
- Photos (assets) are numbered per photographer. They are uploaded within the storage quota and published. They are then archived and deleted on deadlines.
- Events and albums carry slugs and access tokens. Categories count their events.
- A sale order may hold one photographer's photos only. A mixed order is split. The platform commission is computed per order.
- Mercado Pago payments carry the seller's token and the order metadata.
- Monthly commission statements are generated per photographer.
- Portal controllers do the following:
  - edit the profile and the watermark;
  - upload photos;
  - manage events, albums and debts;
  - run the guest checkout;
  - serve downloads and ZIP archives.

**SYNARA** addons serve a project-management company:
- milestone start payments and early-completion bonuses;
- objective bonuses paid per task;
- a wizard that links tasks to a milestone;
- an installer that reads module names from a spreadsheet, and its installation log;
- project naming for projects created from sales;
- copying template tasks with no limit on their number.

## How the model is built
- Each source file has one Dafny module.
- The `Orm` module holds the shared ORM pieces.
  - An Odoo model whose records are changed in place is an `Orm.Table<R>`: a class whose `rows` map ids to record values, with a `nextId` counter.
  - A recordset is a sequence of distinct ids.
- A computed field or a per-record rule is a function on record values. A loop over records is a method on the table. Its `ensures` ties the new rows to those functions.
- A `raise` is an error result. `Option`, the outcome datatypes and the `ok` flags carry it.
  - An operation that fails leaves the records as they were, as the database transaction does. The loop steps `SaleOrders.ProcessPlanLine` and `Billing.BillAll` leave that to their callers, which restore the tables.
  - An id drawn by a refused insert may stay drawn, as a database sequence does (`Partners.ActivatePhotoPlan`).
- Other representations:
  - money and percentages are `real`;
  - an unset Char field is the empty string;
  - dates are civil dates (`Dates.Date`);
  - datetimes are integer seconds.
- Inputs from outside are parameters:
  - "today", "now", and random tokens;
  - request payloads;
  - decoded file contents;
  - the results of searches on models that are not part of the model.
- Python's built-ins are modelled in `Text`, `Dates` and `Arith`. This covers `strip`, `lower`, `int`, `str`, `relativedelta` and truncation.

## Model
| member | source | states |
|---|---|---|
| Subscriptions.WithUsage | addons/fotoapp/models/plan_subscription.py:98-107 | the photo, album and event counters are the numbers of linked records, storage is the sum of the photos' sizes, and no other field changes |
| Subscriptions.UsageAfterNewPhoto | addons/fotoapp/models/plan_subscription.py:99-105 | one more photo of `n` bytes raises the photo count by one and the storage used by exactly `n` |
| Subscriptions.StorageLimitBytes | addons/fotoapp/models/plan_subscription.py:115-117 | the quota in bytes is the plan's MB limit (GB fallback) times 1024², and 0 without a plan |
| Subscriptions.WithLimitFlags | addons/fotoapp/models/plan_subscription.py:109-119 | each over-limit flag is set exactly when the plan has a non-zero limit for that metric and the usage exceeds it; only the flags and the byte limit change |
| Subscriptions.UnlimitedStorageNeverOver | addons/fotoapp/models/plan_subscription.py:115-119 | with no plan or a zero storage limit the storage flag is never raised |
| Subscriptions.CheckLimits | addons/fotoapp/models/plan_subscription.py:151-167 | `check_limits(metric)`; `Subscriptions.CheckLimitsIsNotOver` ties it to the over-limit flags |
| Subscriptions.CheckLimitsIsNotOver | addons/fotoapp/models/plan_subscription.py:151-167 | `check_limits(metric)` holds exactly when the flag `_compute_limit_flags` computes for that metric is down |
| Subscriptions.RemainingStorageBytes | addons/fotoapp/models/plan_subscription.py:194-203 | unlimited storage (no plan or a zero limit) gives `False`; otherwise the remaining bytes, never negative |
| Subscriptions.CanStoreIffWithinRemaining | addons/fotoapp/models/plan_subscription.py:183-203 | while usage is within the quota, `can_store_bytes(n)` holds exactly when `n` fits in `remaining_storage_bytes()`, and always when storage is unlimited |
| Subscriptions.CanStoreBytes | addons/fotoapp/models/plan_subscription.py:183-192 | `can_store_bytes(n)`: always true without a plan or quota, else usage plus `n` within the quota; `Subscriptions.CanStoreIffWithinRemaining` ties it to `remaining_storage_bytes` and `Subscriptions.AdmissionKeepsStorageLimit` shows an admitted upload keeps the storage check |
| Subscriptions.AdmissionKeepsStorageLimit | addons/fotoapp/models/plan_subscription.py:151-192 | storing bytes that `can_store_bytes` admitted leaves `check_limits('storage')` true |
| Subscriptions.NextCycleDate | addons/fotoapp/models/plan_subscription.py:233-241 | no billing date gives `False`; otherwise a strictly later date: one plan billing cycle on, or 30 days without a plan |
| Subscriptions.Activate | addons/fotoapp/models/plan_subscription.py:121-129 | only a photographer subscription in draft, trial or grace changes: it becomes active with today's activation date, keeps a next billing date already set and otherwise gets the next cycle date after today; no other field changes |
| Subscriptions.ActivateIdempotent | addons/fotoapp/models/plan_subscription.py:121-129 | activating twice on one day is the same as activating once |
| Subscriptions.EnterGrace | addons/fotoapp/models/plan_subscription.py:131-135 | a photographer subscription enters grace, until today + 7 days unless a grace date is already set; other subscriptions are untouched |
| Subscriptions.Suspend | addons/fotoapp/models/plan_subscription.py:137-139 | a photographer subscription becomes suspended and nothing else changes |
| Subscriptions.Cancel | addons/fotoapp/models/plan_subscription.py:141-144 | a photographer subscription becomes canceled with today as cancellation date |
| Subscriptions.MarkExpired | addons/fotoapp/models/plan_subscription.py:146-149 | a photographer subscription becomes expired with today as end date |
| Subscriptions.HandleSuccessfulPayment | addons/fotoapp/models/plan_subscription.py:205-212 | a non-photographer subscription is untouched; a photographer one becomes active, leaves grace and is activated today; a next billing date already set is kept, and one that was missing is set by the write hook to the next cycle date after today; no other field changes (also lines 322-330) |
| Subscriptions.ApplyNonpaymentDowngrade | addons/fotoapp/models/plan_subscription.py:214-223 | a photographer subscription becomes active with no next billing date, moved to the FREEMIUM plan when one exists |
| Subscriptions.DowngradeStopsBilling | addons/fotoapp/models/plan_subscription.py:214-231 | after a downgrade to the FREEMIUM plan the subscription is no longer eligible for billing |
| Subscriptions.ConstraintPreservesUniqueness | addons/fotoapp/models/plan_subscription.py:169-181 | if the constraint passes on the written records and nothing else changed, no partner holds two active photographer subscriptions |
| Subscriptions.ConstraintOnAllIsUniqueness | addons/fotoapp/models/plan_subscription.py:169-181 | checking the constraint on every record is exactly the uniqueness rule |
| Subscriptions.ConstraintHolds | addons/fotoapp/models/plan_subscription.py:169-181 | `_constrain_unique_active` on the written records: no other active photographer subscription of the same partner; `Subscriptions.ConstraintOnAllIsUniqueness` and `Subscriptions.ConstraintPreservesUniqueness` show it is the one-active-plan rule |
| Subscriptions.ActivateWrites | addons/fotoapp/models/plan_subscription.py:122-124 | the records the action writes are among the recordset, and every record it leaves out is one that activation does not change |
| Subscriptions.ActionActivate | addons/fotoapp/models/plan_subscription.py:121-129 | the action succeeds exactly when the one-active-plan constraint holds, on the written records, in the table with the whole recordset activated; then that is the new table, otherwise nothing changes; no id is drawn and a table without two active plans per partner keeps that property (also lines 169-181) |
| Subscriptions.ActionEnterGrace | addons/fotoapp/models/plan_subscription.py:131-135 | the action succeeds exactly when the one-active-plan constraint holds on the recordset in the table with the recordset in grace; then that is the new table, otherwise nothing changes; uniqueness of active plans is kept (also lines 169-181) |
| Subscriptions.ActionSuspend | addons/fotoapp/models/plan_subscription.py:137-139 | the recordset's records are suspended and every other record is unchanged |
| Subscriptions.ActionCancel | addons/fotoapp/models/plan_subscription.py:141-144 | the recordset's records are canceled and every other record is unchanged |
| Subscriptions.ActionMarkExpired | addons/fotoapp/models/plan_subscription.py:146-149 | the recordset's records are expired and every other record is unchanged |
| Subscriptions.ComputeLimitFlags | addons/fotoapp/models/plan_subscription.py:109-119 | the flags of the recordset's records are recomputed and every other record is unchanged |
| Billing.CurrentBilling | addons/fotoapp/models/plan_subscription.py:257 | the billed date is the explicit date, else the stored next billing date, else today |
| Billing.CycleDebtGrace | addons/fotoapp/models/plan_subscription.py:272-283 | a cycle's debt is a pending subscription debt for the plan's fee, due on the billed date with 15 days of grace, payable and not invoiced |
| Billing.Advanced | addons/fotoapp/models/plan_subscription.py:266-286 | after a pass the next billing date is strictly after the billed date and nothing else changes |
| Billing.Pass | addons/fotoapp/models/plan_subscription.py:256-286 | a debt is created exactly when the cycle is free and the fee non-zero; a forced pass over a taken cycle with a fee fails on the unique-cycle constraint and changes nothing |
| Billing.BillOutcomeCalendar | addons/fotoapp/models/plan_subscription.py:256-286 | a successful pass advances the calendar, a failed one changes nothing, and an unforced pass outside the write hook never fails |
| Billing.BillOutcomeDebts | addons/fotoapp/models/plan_subscription.py:256-286 | one subscription is billed at most twice in a pass (the write hook's forced pass), only with pending debts of that subscription |
| Billing.BillOutcomeNotTaken | addons/fotoapp/models/plan_subscription.py:260-266 | a pass never creates a debt for a cycle already billed |
| Billing.BillOutcomeDistinctCycles | addons/fotoapp/models/plan_subscription.py:260-266 | nor two debts for one cycle |
| Billing.Billed | addons/fotoapp/models/plan_subscription.py:322-337 | after billing, with or without the write hook's second pass, the next billing date is strictly after the billed date |
| Billing.ApplyOutcome | addons/fotoapp/models/plan_subscription.py:283-286 | the subscription is written and every new debt is created under a fresh id, keeping one debt per cycle |
| Billing.BillSubscription | addons/fotoapp/models/plan_subscription.py:256-286 | the tables change exactly as the pass's outcome says, each new debt under a fresh id and no existing debt changed; a failed pass creates nothing; cycles stay unique |
| Billing.BillOutcomeBilled | addons/fotoapp/models/plan_subscription.py:256-286 | every debt a pass creates is the cycle debt of the subscription at the billed date, or, in the write hook's second pass, at the next billing date the first pass set (also lines 332-335) |
| Billing.BillIfEligible | addons/fotoapp/models/plan_subscription.py:225-231 | only subscriptions eligible for billing are billed |
| Subscriptions.EligibleForBilling | addons/fotoapp/models/plan_subscription.py:225-231 | a photographer subscription in a billable state with a non-FREEMIUM plan; `Billing.BillIfEligible` bills exactly these, `Billing.BillOne` creates debts only for them and `Subscriptions.DowngradeStopsBilling` shows a downgraded one drops out |
| Billing.BillOutcome | addons/fotoapp/models/plan_subscription.py:256-286 | the outcome of billing one subscription, with the write hook's second pass; `Billing.BillOutcomeCalendar`, `Billing.BillOutcomeDebts`, `Billing.BillOutcomeNotTaken`, `Billing.BillOutcomeDistinctCycles` and `Billing.BillOutcomeBilled` state what it creates and when it fails |
| Billing.DebtsOfEligible | addons/fotoapp/models/plan_subscription.py:225-231 | for an eligible subscription the loop's debts and success are those of its billing outcome |
| Billing.OutcomeIgnoresOtherDebts | addons/fotoapp/models/plan_subscription.py:260-266 | debts created earlier in the loop for other subscriptions do not change how a subscription is billed, since the cycle test looks only at its own cycles |
| Billing.DebtsOfOwned | addons/fotoapp/models/plan_subscription.py:272-283 | the debts billing a subscription creates belong to that subscription |
| Billing.BilledDebtsOwned | addons/fotoapp/models/plan_subscription.py:255-286 | every debt the loop creates belongs to a subscription of the recordset |
| Billing.DebtsOfFromBilling | addons/fotoapp/models/plan_subscription.py:255-286 | the debts billing one subscription of the recordset creates are billed cycle debts of an eligible subscription of it, not invoiced |
| Billing.BilledDebtsFromBilling | addons/fotoapp/models/plan_subscription.py:255-286 | so is every debt the whole loop creates |
| Billing.OutcomeCreatesFreeCycle | addons/fotoapp/models/plan_subscription.py:260-283 | billing a subscription without raising creates the debt of its billed cycle whenever that cycle is free and the fee is non-zero |
| Billing.BilledDebtsComplete | addons/fotoapp/models/plan_subscription.py:255-286 | when the loop does not raise, every eligible subscription of the recordset whose billed cycle is free and whose plan has a fee gets that cycle's debt |
| Billing.PassesSucceedPrefix | addons/fotoapp/models/plan_subscription.py:255-286 | a loop that does not raise on the recordset does not raise on any prefix of it |
| Billing.LoopStops | addons/fotoapp/models/plan_subscription.py:255-286 | a subscription whose billing raises makes the whole loop raise |
| Billing.BillOne | addons/fotoapp/models/plan_subscription.py:255-286 | one iteration bills the subscription if eligible and changes nothing when it fails; it fails exactly when billing the subscription as found raises, and on success the debts it creates are, in order, exactly the debts of that billing; debts are only added, under fresh ids, and only for an eligible subscription; an unforced call outside the write hook never fails; cycles stay unique |
| Billing.BillStep | addons/fotoapp/models/plan_subscription.py:255-286 | one pass of the loop over the `i`-th subscription, whose cycles no earlier pass took: it fails exactly when billing that subscription raises and then changes nothing; otherwise the first `i + 1` subscriptions are billed and the new debts are, in order, exactly the debts billing the `i`-th subscription creates |
| Billing.CreatedGrows | addons/fotoapp/models/plan_subscription.py:281-282 | appending one iteration's debts to those created so far keeps every created debt fresh and a billed cycle debt of some eligible subscription of the recordset |
| Billing.BillAll | addons/fotoapp/models/plan_subscription.py:255-286 | the loop succeeds exactly when no subscription of the recordset makes billing raise; then every subscription of the recordset is billed, and the created debts are, in order, exactly the debts billing each eligible subscription in turn creates, so every eligible subscription with a free cycle and a fee gets its debt (`Billing.BilledDebtsComplete`); debts are only added, under fresh ids; an unforced call outside the write hook never fails; cycles stay unique |
| Billing.InvoicingKeepsProvenance | addons/fotoapp/models/plan_subscription.py:287-288 | creating the invoices changes a created debt only in its invoice link |
| Billing.GenerateSubscriptionDebt | addons/fotoapp/models/plan_subscription.py:251-288 | it succeeds exactly when no subscription of the recordset makes billing raise; on success every subscription of the recordset is billed if eligible and no other changes, and the created debts are, apart from their invoice links and in order, exactly the debts billing each eligible subscription creates, so none is missing and none is extra; every debt and every invoice that existed before stays as it was; a created debt carries an invoice exactly when it was invoiceable, and that invoice is new and is the invoice for the debt; new subscription debts are not invoiceable; a failure (the unique-cycle constraint) rolls everything back; an unforced call outside the write hook never fails; cycles stay unique |
| Billing.CycleDebt | addons/fotoapp/models/plan_subscription.py:272-283 | the cycle's debt is a pending subscription debt of the subscription's partner and plan, for the plan's monthly fee, billed on the cycle date |
| Plans.CheckPercentages | addons/fotoapp/models/plan.py:126-132 | a plan passes exactly when both percentages lie in [0, 100]; a negative percentage is the error reported first |
| Plans.CheckPositiveLimits | addons/fotoapp/models/plan.py:134-141 | as written: passes exactly when the photo, album and event limits and the deprecated GB limit are non-negative; a negative count is reported first |
| Plans.CheckPositiveLimitsIntended | addons/fotoapp/models/plan.py:134-141 | the corrected check also rejects a negative MB limit, so every accepted plan has a non-negative storage quota |
| Plans.NegativeMbAccepted | addons/fotoapp/models/plan.py:134-141 | a plan with `storage_limit_mb = -1` passes both constraints as written and gets a negative quota |
| Plans.StorageLimitMb | addons/fotoapp/models/plan.py:149 | the MB limit when set, else the GB fallback times 1024 truncated to an integer |
| Plans.IsFreemiumPlan | addons/fotoapp/models/plan.py:238-242 | a plan flagged freemium or coded `FREEMIUM`; `Subscriptions.EligibleForBilling` excludes such plans and `Subscriptions.DowngradeStopsBilling` shows a subscription downgraded to it is never billed |
| Plans.GetLimitPayload | addons/fotoapp/models/plan.py:143-153 | the payload holds the plan's quotas, with storage reported in MB through the GB fallback |
| Plans.IntervalMonths | addons/fotoapp/models/plan.py:261-268 | monthly (or unset) is 1 month, quarterly 3 and yearly 12 |
| Plans.AddBillingCycle | addons/fotoapp/models/plan.py:302-304 | one billing interval on; the day never grows, and `Plans.BillingCycleAdvances` states that the date moves forward by exactly the interval in months |
| Plans.BillingCycleAdvances | addons/fotoapp/models/plan.py:302-304 | adding a billing cycle gives a strictly later date, preserves the order of dates and moves the calendar month by exactly the interval |
| Plans.SubscriptionTemplate | addons/fotoapp/models/plan.py:231-236 | the plan's own template, else the blueprint template |
| Plans.SubscriptionLineCommands | addons/fotoapp/models/plan.py:306-314 | no product variant gives no line; otherwise one line of that product with quantity 1 |
| Plans.PlanTaxIds | addons/fotoapp/models/plan.py:294-300 | the plan's taxes, else the company's default sale tax, else none |
| Debts.Pay | addons/fotoapp/models/debt.py:73-79 | a debt ends up paid; an unpaid one gets the payment date, a paid one is left as it is |
| Debts.ToGrace | addons/fotoapp/models/debt.py:84-85 | only a pending debt moves to grace |
| Debts.Expire | addons/fotoapp/models/debt.py:87-90 | only a pending or in-grace debt expires |
| Debts.PaidIsAbsorbing | addons/fotoapp/models/debt.py:73-92 | no transition moves a paid debt or its payment date |
| Debts.TransitionsAndPayability | addons/fotoapp/models/debt.py:73-96 | after paying or expiring a debt it can no longer be paid; moving to grace keeps it payable exactly when it was |
| Debts.CanBePaid | addons/fotoapp/models/debt.py:94-96 | a pending or in-grace debt; `Debts.TransitionsAndPayability` shows paying or expiring ends payability and moving to grace keeps it |
| Debts.PortalLabel | addons/fotoapp/models/debt.py:98-104 | one label per debt type, and each label names exactly one type |
| Debts.InvoiceProduct | addons/fotoapp/models/debt.py:106-117 | the plan's product variant when it has one, else its template's variant, else the renewal product; none exactly when there is no renewal product and the plan gives no variant |
| Debts.InvoiceJournal | addons/fotoapp/models/debt.py:119-126 | the plan's journal, else the company's sale journal |
| Debts.IncomeAccount | addons/fotoapp/models/debt.py:145-157 | the plan's income account when set, else the product's, else its category's, else the company's fallback |
| Debts.CycleTakenAfterInsert | addons/fotoapp/models/debt.py:56-60 | a billing cycle is taken after inserting a debt exactly when it was taken before or the new debt bills it |
| Debts.CreateDebt | addons/fotoapp/models/debt.py:56-60 | creating a debt for a cycle already billed fails on the unique constraint and changes nothing; otherwise it is stored under a fresh id and cycles stay unique |
| Debts.UniqueCycles | addons/fotoapp/models/debt.py:56-60 | the unique constraint on (subscription, type, billing date): no two debts bill the same cycle; `Debts.CreateDebt`, `Billing.BillAll`, `Billing.GenerateSubscriptionDebt` and `Debts.InvoicingDone` keep it |
| Debts.HandleSuccessfulPaymentIdempotent | addons/fotoapp/models/plan_subscription.py:205-212 | handling a successful payment twice on one day is the same as once |
| Debts.DowngradeIdempotent | addons/fotoapp/models/plan_subscription.py:214-223 | downgrading twice is the same as once |
| Debts.PayOne | addons/fotoapp/models/debt.py:74-81 | one iteration pays the debt and, if it was unpaid and has a subscription, handles the payment on that subscription |
| Debts.PayAll | addons/fotoapp/models/debt.py:73-81 | the loop pays the recordset's debts and has exactly the subscriptions of the debts that were unpaid handle a successful payment; nothing else changes |
| Debts.MarkPaid | addons/fotoapp/models/debt.py:73-81 | the payment succeeds exactly when the one-active-plan constraint holds on the touched subscriptions in the table after the payments; then the recordset's debts are paid and exactly the subscriptions of the debts that were unpaid handle a successful payment; otherwise debts and subscriptions are unchanged; uniqueness of active plans is kept (also lines 169-181 of plan_subscription.py) |
| Debts.MarkInGrace | addons/fotoapp/models/debt.py:84-85 | the recordset's pending debts move to grace and nothing else changes |
| Debts.ExpireOne | addons/fotoapp/models/debt.py:88-92 | one iteration expires the debt and, if it was payable and has a subscription, downgrades that subscription |
| Debts.ExpireAll | addons/fotoapp/models/debt.py:87-92 | the loop expires the recordset's payable debts and downgrades exactly their subscriptions; nothing else changes |
| Debts.MarkExpired | addons/fotoapp/models/debt.py:87-92 | the expiry succeeds exactly when the one-active-plan constraint holds on the downgraded subscriptions in the table after the downgrades; then the recordset's payable debts expire and exactly their subscriptions are downgraded; otherwise debts and subscriptions are unchanged; uniqueness of active plans is kept (also lines 169-181 of plan_subscription.py) |
| Debts.InvoicedIsFinal | addons/fotoapp/models/debt.py:159-194 | a debt the pass has handled is not invoiceable again, so invoicing is done at most once |
| Debts.InvoiceOne | addons/fotoapp/models/debt.py:161-193 | an invoiceable debt gets one new posted invoice, linked to it; any other debt is skipped and nothing changes |
| Debts.CreateInternalInvoices | addons/fotoapp/models/debt.py:159-194 | afterwards no debt of the set is invoiceable, every new invoice is fresh, existing invoices are untouched and cycles stay unique |
| Debts.InvoicingDone | addons/fotoapp/models/debt.py:159-194 | after the loop no debt of the set is invoiceable, and if no two debts shared a billing cycle before, none do after |
| Assets.ResolvePhotographer | addons/fotoapp/models/tienda_foto_asset.py:142-150 | the photographer given in the values, else the event's photographer, else none |
| Assets.ResolveSubscription | addons/fotoapp/models/tienda_foto_asset.py:152-161 | the subscription given in the values, else the event's, else the photographer's active one |
| Assets.DefaultName | addons/fotoapp/models/tienda_foto_asset.py:136-140 | a photo with a number is named "Foto <number>" |
| Assets.Prepare | addons/fotoapp/models/tienda_foto_asset.py:107-133 | the stored photo gets the resolved photographer, its number, the given or default name, the given state or published, fresh publication stamps and a portal token when it has an image |
| Assets.PhotoCounters.Next | addons/fotoapp/models/tienda_foto_asset.py:163-185 | reading a photographer's counter returns the stored value plus one and writes it back; an unknown photographer is an error and changes nothing |
| Assets.NumberedAfterInsert | addons/fotoapp/models/tienda_foto_asset.py:163-185 | storing a photo under the next number keeps every photographer's numbers distinct and below the counter |
| Assets.Admissible | addons/fotoapp/models/tienda_foto_asset.py:109-124 | a value set can be stored when a photographer is resolved and numbered and the plan's storage quota admits the image; `Assets.CreateOne` and `Assets.Create` tie success to it |
| Assets.CreateOne | addons/fotoapp/models/tienda_foto_asset.py:108-133 | one value set is stored exactly when it is admissible (a photographer is found and the quota admits the image); a missing photographer is that error; on success the photo is stored under a fresh id with the photographer's next number and only that counter moves; the numbering stays unique |
| Assets.StoreEach | addons/fotoapp/models/tienda_foto_asset.py:106-134 | the loop stores every value set exactly when all are admissible against the counters at entry, one photo per value set, each made from its values |
| Assets.Create | addons/fotoapp/models/tienda_foto_asset.py:106-134 | the batch succeeds exactly when every value set is admissible and every price is positive; a non-positive price is reported only when all are admissible; any error leaves photos and counters unchanged; on success one photo per value set, each made from its values under a fresh number, and every created price is positive (also lines 360-364) |
| Assets.CreatedPricesPositive | addons/fotoapp/models/tienda_foto_asset.py:360-364 | photos made from value sets whose prices are all positive pass the price constraint |
| Assets.PriceOk | addons/fotoapp/models/tienda_foto_asset.py:360-364 | `_check_precio`: the price is positive; `Assets.CreatedPricesPositive` and `Assets.WriteKeepsPricesPositive` show create and write keep it |
| Assets.CreatedNumbersDistinct | addons/fotoapp/models/tienda_foto_asset.py:163-185 | two photos of one photographer never share a number |
| Assets.Assign | addons/fotoapp/models/tienda_foto_asset.py:252-268 | the plain write sets the written fields, renews an unset portal token and stamps the write date, keeping number and photographer |
| Assets.OnPublished | addons/fotoapp/models/tienda_foto_asset.py:394-402 | publishing restarts the publication clock, clears the archive date and shows the photo, and touches nothing else |
| Assets.OnArchived | addons/fotoapp/models/tienda_foto_asset.py:404-411 | archiving stamps the archive date and hides the photo, and touches nothing else |
| Assets.PublishEffects | addons/fotoapp/models/tienda_foto_asset.py:252-277 | writing the published state publishes the photo; the side effect runs only when it was not already published |
| Assets.ArchiveEffects | addons/fotoapp/models/tienda_foto_asset.py:252-277 | writing the archived state archives the photo; the archive date is stamped only when it was not already archived |
| Assets.NoStateNoSideEffect | addons/fotoapp/models/tienda_foto_asset.py:252-277 | a write that does not touch the lifecycle state has no side effect |
| Assets.ArchiveIdempotent | addons/fotoapp/models/tienda_foto_asset.py:391-411 | archiving twice is the same as once, apart from the write stamp |
| Assets.WithDownloadToken | addons/fotoapp/models/tienda_foto_asset.py:292-297 | a photo without a download token gets a new one; a photo with one keeps it |
| Assets.EnsureDownloadTokens | addons/fotoapp/models/tienda_foto_asset.py:292-297 | every photo of the recordset has its token ensured, the returned tokens are the photos' tokens, and no other photo changes |
| Assets.DownloadTokenIssued | addons/fotoapp/models/tienda_foto_asset.py:292-297 | after the call every photo has a non-empty token, and an existing token is never replaced |
| Assets.Write | addons/fotoapp/models/tienda_foto_asset.py:252-277 | a write with a non-positive price is rejected and changes nothing; otherwise every photo of the recordset is written with its lifecycle side effects |
| Assets.WriteKeepsPricesPositive | addons/fotoapp/models/tienda_foto_asset.py:360-365 | writes that pass the price check keep every price positive |
| Assets.Anchor | addons/fotoapp/models/tienda_foto_asset.py:417-422 | the anchor is the later of the last sale and the last publication (or creation) |
| Assets.ArchiveDeadline | addons/fotoapp/models/tienda_foto_asset.py:439-444 | the archive deadline is the anchor plus the configured days; there is none for 0 days or no anchor |
| Assets.DeleteDeadline | addons/fotoapp/models/tienda_foto_asset.py:446-451 | the delete deadline is the archive date (else write, else create date) plus the configured days; there is none for 0 days or no base date |
| Assets.DaysLeft | addons/fotoapp/models/tienda_foto_asset.py:463-467 | the whole days left before the deadline, never negative |
| Assets.Countdowns | addons/fotoapp/models/tienda_foto_asset.py:453-469 | only a published photo counts down to archiving and only an archived one to deletion |
| Assets.SafeIntParam | addons/fotoapp/models/tienda_foto_asset.py:431-437 | a missing parameter reads as `False` and so as 0; a stored one that parses as an integer is that integer; an unparsable one is the default |
| Assets.SafeIntParamOfPrinted | addons/fotoapp/models/tienda_foto_asset.py:431-437 | a parameter stored as a printed number reads back as that number |
| Assets.LifecycleConfig | addons/fotoapp/models/tienda_foto_asset.py:424-429 | without parameters both delays are 0; an unparsable archive delay is 30 days and an unparsable delete delay 15 days |
| Assets.UnsetConfigRetiresNothing | addons/fotoapp/models/tienda_foto_asset.py:424-451 | with no parameters set, no photo is ever due for archiving or deletion, since both deadlines are none |
| Assets.Scan | addons/fotoapp/models/tienda_foto_asset.py:478-481 | the scan collects exactly the candidates whose deadline has passed |
| Assets.CronManageLifecycle | addons/fotoapp/models/tienda_foto_asset.py:471-491 | the table after the cron is the due photos archived, then the archived photos whose delete deadline has passed removed |
| Assets.CronEffect | addons/fotoapp/models/tienda_foto_asset.py:471-491 | a due published photo is archived now, or deleted at once if its new delete deadline has also passed; a due archived photo is deleted; any other photo is untouched |
| Assets.ArchiveAfterInactivity | addons/fotoapp/models/tienda_foto_asset.py:471-483 | with the default settings, a photo published 31 days ago and never sold is archived |
| Assets.DeleteAfterArchived | addons/fotoapp/models/tienda_foto_asset.py:485-491 | with the default settings, a photo archived 16 days ago is deleted |
| Events.Successor | addons/fotoapp/models/tienda_foto_evento.py:186-193 | every stage but archived has a successor in the flow |
| Events.NextStage | addons/fotoapp/models/tienda_foto_evento.py:185-197 | the action moves an event one stage forward and changes nothing else; an archived event stays as it is |
| Events.StepsReachArchived | addons/fotoapp/models/tienda_foto_evento.py:185-197 | from any stage, enough calls of the action reach archived and stop there, with no other field changed |
| Events.ActionNextStage | addons/fotoapp/models/tienda_foto_evento.py:185-197 | every event of the recordset advances one stage and no other event changes |
| Events.EnsureUpload | addons/fotoapp/models/tienda_foto_evento.py:154-157 | an event that has an upload token keeps it; only the upload token can change |
| Events.EnsurePortal | addons/fotoapp/models/tienda_foto_evento.py:159-161 | an event without a portal token gets the new random token; one with a token keeps it |
| Events.SlugifyNonEmpty | addons/fotoapp/models/utils.py:12-27 | the slug of any value is never empty when the fallback is not |
| Events.EnsuredTokensSet | addons/fotoapp/models/tienda_foto_evento.py:139-161 | after the two passes both tokens are set |
| Events.FallbackIsSlug | addons/fotoapp/models/tienda_foto_evento.py:138 | the fallback `evento` is itself a normalised slug |
| Events.NewEventSlug | addons/fotoapp/models/tienda_foto_evento.py:137-138 | the slug stored on create is the normalised slug given, else the normalised name, and is always well formed |
| Events.CreatedShape | addons/fotoapp/models/tienda_foto_evento.py:135-142 | a created event has a well-formed slug and both tokens, and tokens given in the values are kept |
| Events.Create | addons/fotoapp/models/tienda_foto_evento.py:135-142 | the insert succeeds exactly when the new slugs and portal tokens clash neither with a stored event nor with each other; a refused insert changes nothing; otherwise one fresh record per value set, each the created event for its values, existing records untouched, and slug and token uniqueness is kept (also lines 89-92) |
| Events.CreateAllowedIffKeysUnique | addons/fotoapp/models/tienda_foto_evento.py:135-142 | starting from unique slugs and tokens, the insert is allowed exactly when the table after it still has unique slugs and tokens (also lines 89-92) |
| Events.SameNameRefused | addons/fotoapp/models/tienda_foto_evento.py:89-90 | an event created without a slug, whose name gives the slug a stored event already has, is refused (also lines 137-138) |
| Events.WrittenSlug | addons/fotoapp/models/tienda_foto_evento.py:145-146 | a non-empty slug written is normalised; with no slug in the values the old slug stays |
| Events.WriteKeepsTokens | addons/fotoapp/models/tienda_foto_evento.py:144-152 | tokens already set are replaced only by values that write them; writing an empty portal token draws a new one |
| Events.WriteSlug | addons/fotoapp/models/tienda_foto_evento.py:144-152 | `write` normalises a slug it is given and leaves the slug alone otherwise |
| Events.RewriteSlugIsStable | addons/fotoapp/models/tienda_foto_evento.py:145-146 | rewriting a stored slug gives back the same slug |
| Events.Assign | addons/fotoapp/models/tienda_foto_evento.py:150 | the plain write on one event; `Events.WriteSlug` and `Events.WriteKeepsTokens` state what it does to the slug and the tokens |
| Events.Write | addons/fotoapp/models/tienda_foto_evento.py:144-152 | the write succeeds exactly when the written slugs and tokens clash neither with the other events nor with each other; a refused write changes nothing; otherwise every event of the recordset is written, no other event changes, no id is drawn and uniqueness is kept (also lines 89-92) |
| Events.WriteOne | addons/fotoapp/models/tienda_foto_evento.py:144-152 | the one event is written exactly when its new slug and token clash with no other event, and nothing changes otherwise; uniqueness is kept (also lines 89-92) |
| Events.WriteAllowedIffKeysUnique | addons/fotoapp/models/tienda_foto_evento.py:144-152 | starting from unique slugs and tokens, the write is allowed exactly when the table after it still has unique slugs and tokens (also lines 89-92) |
| Events.KeylessWriteAllowed | addons/fotoapp/models/tienda_foto_evento.py:144-152 | a write that sets neither a slug nor a portal token never violates the constraints (also lines 89-92) |
| Events.SharedSlugRefused | addons/fotoapp/models/tienda_foto_evento.py:89-90 | writing one non-empty slug to two or more events is refused (also lines 144-146) |
| Events.Publicar | addons/fotoapp/models/tienda_foto_evento.py:163-169 | the event is published, selling, on the website, stamped now, and nothing else changes |
| Events.Archivar | addons/fotoapp/models/tienda_foto_evento.py:171-176 | the event is archived in both fields and off the website, and nothing else changes |
| Events.VolverBorrador | addons/fotoapp/models/tienda_foto_evento.py:178-183 | the event is back to draft and planning and off the website, and nothing else changes |
| Events.ActionsAreWrites | addons/fotoapp/models/tienda_foto_evento.py:144-183 | the three actions are plain writes that trigger neither the slug nor the token hooks |
| Events.ArchivarStopsFlow | addons/fotoapp/models/tienda_foto_evento.py:171-197 | an archived event has no next stage, and back to draft restarts the flow at its beginning |
| Events.ActionPublicar | addons/fotoapp/models/tienda_foto_evento.py:163-169 | every event of the recordset is published and no other changes |
| Events.ActionArchivar | addons/fotoapp/models/tienda_foto_evento.py:171-176 | every event of the recordset is archived and no other changes |
| Events.ActionVolverBorrador | addons/fotoapp/models/tienda_foto_evento.py:178-183 | every event of the recordset is back to draft and no other changes |
| Events.PlanSubscription | addons/fotoapp/models/tienda_foto_evento.py:108-119 | no photographer gives no link; a link to the photographer's own subscription is kept; any result is a subscription of the photographer |
| Events.PlanSubscriptionPicksFirstActive | addons/fotoapp/models/tienda_foto_evento.py:115-119 | otherwise the link is the first of the photographer's subscriptions that is an active photographer plan, and none when there is none |
| Events.PlanSubscriptionIdempotent | addons/fotoapp/models/tienda_foto_evento.py:108-119 | recomputing the link right after computing it changes nothing |
| Events.ComputePlanSubscription | addons/fotoapp/models/tienda_foto_evento.py:108-119 | every event of the recordset is relinked and no other changes |
| Events.PhotosOfEvents | addons/fotoapp/models/tienda_foto_evento.py:201 | exactly the photos whose event is deleted |
| Events.AlbumsOfEvents | addons/fotoapp/models/tienda_foto_evento.py:204 | exactly the albums whose event is deleted |
| Events.Unlink | addons/fotoapp/models/tienda_foto_evento.py:199-207 | deleting events deletes their photos and albums, and removes the deleted photos from the remaining albums |
| Events.UnlinkLeavesNoOrphans | addons/fotoapp/models/tienda_foto_evento.py:199-207 | afterwards no photo or album belongs to a deleted event and no album holds a deleted photo |
| Slugs.AsciiOnly | addons/fotoapp/models/utils.py:25 | the non-ASCII characters are dropped and an ASCII string is left as it is |
| Slugs.SubRuns | addons/fotoapp/models/utils.py:26 | each maximal run of characters outside `[a-z0-9]` becomes one `-`: the result holds only slug characters and dashes, never two dashes in a row, and starts with a dash exactly when the input starts outside the class |
| Slugs.StripDashLeft | addons/fotoapp/models/utils.py:26 | the result is a suffix of the input that does not start with `-` |
| Slugs.StripDashRight | addons/fotoapp/models/utils.py:26 | the result is a prefix of the input that does not end with `-` |
| Slugs.CoreIsSlug | addons/fotoapp/models/utils.py:24-26 | whatever the input, a non-empty normalised text is a well-formed slug |
| Slugs.Slugify | addons/fotoapp/models/utils.py:12-27 | `slugify_value`: the result is empty only when the fallback is; `Slugs.SlugifyShape` and `Slugs.SlugifyIsSlug` state its shape |
| Slugs.SlugifyShape | addons/fotoapp/models/utils.py:12-27 | the result is a well-formed slug or the lowered fallback |
| Slugs.SlugifyIsSlug | addons/fotoapp/models/utils.py:12-27 | with a well-formed fallback every result is a well-formed slug |
| Slugs.EmptyUsesFallback | addons/fotoapp/models/utils.py:22-23 | a missing or empty value is slugged as the fallback |
| Slugs.SubRunsFixed | addons/fotoapp/models/utils.py:26 | the substitution leaves a string of slug characters and single dashes alone |
| Slugs.LowerOfSlugChars | addons/fotoapp/models/utils.py:26 | lower-casing leaves slug characters alone |
| Slugs.SlugOfSlug | addons/fotoapp/models/utils.py:12-27 | a well-formed slug is its own slug |
| Slugs.SlugifyIdempotent | addons/fotoapp/models/utils.py:12-27 | slugifying twice is slugifying once, when the fallback is a slug |
| Albums.AssetCount | addons/fotoapp/models/tienda_foto_album.py:63-66 | the count is zero exactly when the album has no photos |
| Albums.NewAlbum | addons/fotoapp/models/tienda_foto_album.py:68-73 | a created album always has a customer token: the one given, or a new random one when none was given |
| Albums.Create | addons/fotoapp/models/tienda_foto_album.py:68-73 | the insert succeeds exactly when the chosen tokens clash neither with a stored album nor with each other; a refused insert creates nothing and changes nothing; otherwise one fresh record per value set, each the new album for its values, existing records untouched, and token uniqueness is kept (also lines 50-52) |
| Albums.CreateAllowedIffTokensUnique | addons/fotoapp/models/tienda_foto_album.py:50-52 | starting from unique tokens, the insert is allowed exactly when the table after it still has unique tokens (also lines 68-73) |
| Albums.TakenTokenRefused | addons/fotoapp/models/tienda_foto_album.py:50-52 | an album created with a token some stored album already holds is refused |
| Albums.Publish | addons/fotoapp/models/tienda_foto_album.py:75-78 | only a draft, editing or proofing album is published |
| Albums.MarkDelivered | addons/fotoapp/models/tienda_foto_album.py:80-84 | only a published or delivered album becomes delivered |
| Albums.Archive | addons/fotoapp/models/tienda_foto_album.py:86-87 | any album is archived and nothing else changes |
| Albums.ActionsFromArchived | addons/fotoapp/models/tienda_foto_album.py:75-84 | neither publishing nor delivering moves an archived album |
| Albums.DraftToDelivered | addons/fotoapp/models/tienda_foto_album.py:75-84 | publishing then delivering takes a draft album to delivered |
| Albums.ActionsIdempotent | addons/fotoapp/models/tienda_foto_album.py:75-87 | each action is idempotent |
| Albums.ActionPublish | addons/fotoapp/models/tienda_foto_album.py:75-78 | every album of the recordset is published if allowed and no other album changes |
| Albums.ActionMarkDelivered | addons/fotoapp/models/tienda_foto_album.py:80-84 | every album of the recordset is delivered if allowed and no other album changes |
| Albums.ActionArchive | addons/fotoapp/models/tienda_foto_album.py:86-87 | every album of the recordset is archived and no other album changes |
| Albums.WithoutPhotos | addons/fotoapp/models/tienda_foto_album.py:89-96 | deleted photos leave every album's photo set and nothing else changes |
| Albums.Unlink | addons/fotoapp/models/tienda_foto_album.py:89-96 | deleting albums deletes their photos unless cleanup is skipped, and drops those photos from the remaining albums |
| Albums.UnlinkLeavesNoDangling | addons/fotoapp/models/tienda_foto_album.py:89-96 | no remaining album holds a deleted photo, and a photo leaves an album only if a deleted album held it |
| Albums.AddPhotos | addons/fotoapp/controllers/photographer_albums.py:85 | linking photos with `(4, album.id)` adds exactly those photos to the album and changes no other album |
| Categories.MetricsBounds | addons/fotoapp/models/tienda_foto_categoria.py:56-63 | the event count is the number of the category's events, the website count the number of those published and on the website, never more than the first; nothing else changes |
| Categories.ComputeEventMetrics | addons/fotoapp/models/tienda_foto_categoria.py:56-63 | every category of the recordset gets its metrics and no other category changes |
| Categories.PrepareSlug | addons/fotoapp/models/tienda_foto_categoria.py:65-67 | `_prepare_slug`; `Categories.PrepareSlugIsSlug` states that the result is a well-formed slug |
| Categories.PrepareSlugIsSlug | addons/fotoapp/models/tienda_foto_categoria.py:65-67 | a prepared slug is always a well-formed, non-empty slug |
| Categories.FallbackIsSlug | addons/fotoapp/models/tienda_foto_categoria.py:67 | the fallback `categoria` is itself a well-formed slug |
| Categories.PrepareSlugIdempotent | addons/fotoapp/models/tienda_foto_categoria.py:65-67 | preparing a prepared slug gives it back |
| Categories.Write | addons/fotoapp/models/tienda_foto_categoria.py:88-91 | a non-empty slug written is prepared first; with no slug in the values the slug stays |
| Categories.WriteAll | addons/fotoapp/models/tienda_foto_categoria.py:88-91 | the plain write on every category of a recordset; `Categories.WriteAllowedIffSlugsOk` states when the slug constraint lets it through |
| Categories.WriteAllowedIffSlugsOk | addons/fotoapp/models/tienda_foto_categoria.py:48-50 | a write is accepted exactly when the table it produces keeps slugs unique and set |
| Categories.SlugsUnchanged | addons/fotoapp/models/tienda_foto_categoria.py:48-50 | a write that changes no slug keeps the constraint |
| Categories.OneFreshSlug | addons/fotoapp/models/tienda_foto_categoria.py:48-50 | writing to one record a slug no other record holds keeps the constraint |
| Categories.EmptySlugRejected | addons/fotoapp/models/tienda_foto_categoria.py:88-91 | writing an empty slug to a non-empty recordset breaks the constraint |
| Categories.SharedSlugRejected | addons/fotoapp/models/tienda_foto_categoria.py:48-50 | writing one non-empty slug to two or more records breaks the constraint |
| Categories.PrepareSlugNameless | addons/fotoapp/models/tienda_foto_categoria.py:65-67 | a non-empty slug value is prepared the same whatever the record's name |
| Categories.TakenSlugRejected | addons/fotoapp/models/tienda_foto_categoria.py:48-50 | writing to one record a slug another record holds breaks the constraint |
| Categories.WriteRecords | addons/fotoapp/models/tienda_foto_categoria.py:88-91 | a write the constraint accepts updates exactly the recordset; one it rejects rolls back and changes nothing |
| Categories.ActionsEffects | addons/fotoapp/models/tienda_foto_categoria.py:53-100 | each action writes only its own fields: published and on the website, archived and off it, back to draft, or marked as system |
| Categories.ActionsAllowed | addons/fotoapp/models/tienda_foto_categoria.py:53-100 | the actions never trip the constraint |
| Categories.ActionPublicar | addons/fotoapp/models/tienda_foto_categoria.py:93-94 | every category of the recordset is published and no other changes |
| Categories.ActionArchivar | addons/fotoapp/models/tienda_foto_categoria.py:96-97 | every category of the recordset is archived and no other changes |
| Categories.ActionVolverBorrador | addons/fotoapp/models/tienda_foto_categoria.py:99-100 | every category of the recordset is back to draft and no other changes |
| Categories.ActionMarkSystem | addons/fotoapp/models/tienda_foto_categoria.py:53-54 | every category of the recordset is marked as system and no other changes |
| Categories.PrepareAll | addons/fotoapp/models/tienda_foto_categoria.py:74-76 | every value set gets its prepared slug, from the slug given or else the name |
| Categories.PrepareAllPrepared | addons/fotoapp/models/tienda_foto_categoria.py:74-76 | every prepared value set carries a well-formed slug |
| Categories.Upsert | addons/fotoapp/models/tienda_foto_categoria.py:77-81 | an existing category after every system value set carrying its slug is written to it, in order; `Categories.UpsertKeepsSlug` states that its slug is kept |
| Categories.UpsertKeepsSlug | addons/fotoapp/models/tienda_foto_categoria.py:77-81 | writing a prepared value set back to the record that holds its slug keeps the slug |
| Categories.Inserts | addons/fotoapp/models/tienda_foto_categoria.py:77-85 | the inserted value sets are some of the prepared ones, in order |
| Categories.UpsertNext | addons/fotoapp/models/tienda_foto_categoria.py:72-83 | one more value set either updates the existing system record that holds its slug or joins the insertions |
| Categories.InsertsPrepared | addons/fotoapp/models/tienda_foto_categoria.py:84-85 | every inserted value set carries a non-empty slug |
| Categories.CommittedSlugsOk | addons/fotoapp/models/tienda_foto_categoria.py:70-86 | after the upsert and an accepted insertion, slugs stay unique and set |
| Categories.PlanCreate | addons/fotoapp/models/tienda_foto_categoria.py:72-83 | the loop updates the system records whose slug is given again and collects the rest for insertion |
| Categories.CreatePrepared | addons/fotoapp/models/tienda_foto_categoria.py:70-86 | the insertion succeeds exactly when its slugs are distinct and new; then existing records are upserted and new ones added, else nothing changes |
| Categories.Create | addons/fotoapp/models/tienda_foto_categoria.py:70-86 | the same, starting from raw value sets whose slugs are prepared first |
| Categories.SystemDuplicateUpdates | addons/fotoapp/models/tienda_foto_categoria.py:77-81 | a system value set whose slug is taken updates that record instead of inserting a new one |
| Categories.InsertsSkipUpserts | addons/fotoapp/models/tienda_foto_categoria.py:77-83 | a value set that upserts is not among the insertions, unless an identical value set is |
| SaleOrders.WithCommission | addons/fotoapp/models/sale_order.py:138-146 | the platform share is the total times the commission percent, and the two shares add up to the order total; nothing else changes |
| SaleOrders.CommissionBounds | addons/fotoapp/models/sale_order.py:138-146 | with a percent in [0, 100] and a non-negative total both shares lie between 0 and the total, and a zero percent leaves everything to the photographer |
| SaleOrders.RecomputeCommission | addons/fotoapp/models/sale_order.py:138-146 | every order of the recordset gets its commission recomputed and no other order changes |
| SaleOrders.Photographers | addons/fotoapp/models/sale_order.py:103-108 | the photographers of the photo lines, each once, in order of first appearance |
| SaleOrders.PhotoAssets | addons/fotoapp/models/sale_order.py:148-151 | the photos of the order's lines, each once |
| SaleOrders.OnlyPhotographer | addons/fotoapp/models/sale_order.py:103-108 | lines of a single photographer yield just that photographer |
| SaleOrders.DetectSinglePhotographer | addons/fotoapp/models/sale_order.py:153-165 | no photo lines gives none; lines of two different photographers are an error; otherwise the one photographer of every photo line |
| SaleOrders.ApplyPhotographerMetadata | addons/fotoapp/models/sale_order.py:127-136 | the photographer is the one given, else the subscription's partner, else the customer's company; the plan is the subscription's, else the photographer's; no plan means a zero commission |
| SaleOrders.ForPhotographer | addons/fotoapp/models/sale_order.py:114-118 | a split order gets its photographer and a commission computed on its own lines |
| SaleOrders.Keep | addons/fotoapp/models/sale_order.py:103 | the filtered lines are exactly the lines that satisfy the filter, in order |
| SaleOrders.KeepSplit | addons/fotoapp/models/sale_order.py:103-112 | filtering by either of two exclusive conditions gathers the lines of each |
| SaleOrders.MovedPartition | addons/fotoapp/models/sale_order.py:109-112 | the lines that stay and the lines moved to the new orders together are the original lines, none lost or duplicated |
| SaleOrders.Duplicate | addons/fotoapp/models/sale_order.py:121-125 | the copy is a quotation of the same customer with no lines |
| SaleOrders.Spawned | addons/fotoapp/models/sale_order.py:109-112 | the photographers after the first, each once, one new order each |
| SaleOrders.SplitDuplicate | addons/fotoapp/models/sale_order.py:109-118 | a new order holds exactly the photo lines of its photographer and belongs to that photographer |
| SaleOrders.SplitFirst | addons/fotoapp/models/sale_order.py:109-118 | corrected: the original order keeps every line but those moved, belongs to the first photographer, and its commission is computed after the lines left |
| SaleOrders.SplitFirstAsWritten | addons/fotoapp/models/sale_order.py:109-118 | as written: the original order's commission is computed on the total before the other photographers' lines leave |
| SaleOrders.Settled | addons/fotoapp/models/sale_order.py:99-119 | corrected: a confirmed order is left alone; a quotation without photo lines only gets its customer's metadata; any other quotation is split by the corrected `SaleOrders.SplitFirst`, whose commission matches each order's own lines |
| SaleOrders.SplitFirstHasOnePhotographer | addons/fotoapp/models/sale_order.py:99-119 | after the split the original order holds the photo lines of its first photographer only |
| SaleOrders.SplitDuplicateHasOnePhotographer | addons/fotoapp/models/sale_order.py:109-118 | each new order holds the photo lines of exactly one photographer, its own |
| SaleOrders.SplitKeepsLines | addons/fotoapp/models/sale_order.py:99-119 | no line is lost or duplicated by the split: the original order plus the new ones hold exactly the original lines |
| SaleOrders.SplitAmountsMatchTotals | addons/fotoapp/models/sale_order.py:114-118 | with the corrected split every order's two shares add up to its own total |
| SaleOrders.StaleCommissionAfterSplit | addons/fotoapp/models/sale_order.py:109-118 | as written, a 100 + 50 cart of two photographers leaves the first order with a 100 total whose shares add up to 150 |
| SaleOrders.SettleOne | addons/fotoapp/models/sale_order.py:100-119 | corrected: one order is settled as `SaleOrders.Settled` says and its new orders are created under fresh ids; no other order changes |
| SaleOrders.EnsureSinglePhotographerOrders | addons/fotoapp/models/sale_order.py:99-119 | corrected: every order of the recordset is settled as `SaleOrders.Settled` says, one new order per extra photographer is created under a fresh id, and no other order changes |
| SaleOrders.FirstOpen | addons/fotoapp/models/sale_order.py:68-72 | the search finds an open photographer subscription of the partner, and none only when there is none; taking the lowest id is an assumption about the inherited `_order` (see "## Left out") |
| SaleOrders.Renew | addons/fotoapp/models/sale_order.py:73-80 | the renewed subscription is active with its next billing 30 days after the base date, and nothing else changes |
| SaleOrders.Subscribe | addons/fotoapp/models/plan_subscription.py:370-410 | a new plan subscription is created unless there is no template or the partner already has an active one |
| SaleOrders.Clashes | addons/fotoapp/models/plan_subscription.py:169-181 | the one-active-plan constraint on one written record; `SaleOrders.NewClashesIffActive` states when it fires |
| SaleOrders.NewClashesIffActive | addons/fotoapp/models/plan_subscription.py:169-181 | a new active photographer subscription clashes exactly when its partner already holds one |
| SaleOrders.PlanLineEffect | addons/fotoapp/models/sale_order.py:62-85 | a plan line that goes through leaves the partner holding that plan, and only adds subscriptions |
| SaleOrders.PlanLineKeepsUnique | addons/fotoapp/models/sale_order.py:62-85 | a plan line that goes through keeps every partner at one active photographer plan |
| SaleOrders.PlanLinesKeepUnique | addons/fotoapp/models/sale_order.py:62-85 | processing every plan line without an error keeps the one-active-plan rule |
| SaleOrders.NoPlanLinesNoEffect | addons/fotoapp/models/sale_order.py:64-67 | lines without a plan leave the subscriptions alone |
| SaleOrders.LastPlanHeld | addons/fotoapp/models/sale_order.py:62-85 | after a successful confirmation the partner holds the plan of the order's last plan line |
| SaleOrders.PlanLineOutcome | addons/fotoapp/models/sale_order.py:62-85 | the same plan is renewed in place; a different plan cancels the open subscription before activating the new plan |
| SaleOrders.ProcessPlanLine | addons/fotoapp/models/sale_order.py:64-85 | one plan line changes the subscription table as its effect says, and fails exactly when that effect is an error (the one-active-plan constraint); the caller rolls the table back |
| SaleOrders.ProcessPlanLines | addons/fotoapp/models/sale_order.py:62-85 | the table after the loop is the effect of all the plan lines; an error rolls every line back |
| SaleOrders.OrderMonth | addons/fotoapp/models/sale_order.py:166-173 | the first day of the order date's month, unset without a date |
| SaleOrders.SameOrderMonth | addons/fotoapp/models/sale_order.py:166-173 | two orders fall in the same sales month exactly when their dates share year and month |
| SaleOrders.WithOrderMonth | addons/fotoapp/models/sale_order.py:166-173 | only the month field changes, to the month of the order date |
| SaleOrders.ComputeOrderMonth | addons/fotoapp/models/sale_order.py:166-173 | every order of the recordset gets its month and no other changes |
| SaleOrders.EnsureDownloadToken | addons/fotoapp/models/sale_order.py:175-186 | an order with a live token keeps it; otherwise it gets a new token valid for the given days and its e-mail flag is cleared |
| SaleOrders.EnsuredTokenIsLive | addons/fotoapp/models/sale_order.py:175-186 | afterwards the token is live, and ensuring it again changes nothing |
| SaleOrders.EnsureDownloadTokens | addons/fotoapp/models/sale_order.py:175-186 | every order of the recordset has its token ensured and no other order changes |
| SaleOrders.FirstNonEmpty | addons/fotoapp/models/sale_order.py:199-204 | the chain of `or` picks the first non-empty candidate, and "" only when all are empty |
| SaleOrders.LatestTxEmail | addons/fotoapp/models/sale_order.py:196-198 | the e-mail of the latest transaction that has one |
| SaleOrders.RecipientPrecedence | addons/fotoapp/models/sale_order.py:199-204 | the recipient is the delivery e-mail, else the latest transaction's, else the shipping, invoice and customer e-mails in that order |
| SaleOrders.Recipient | addons/fotoapp/models/sale_order.py:199-204 | the recipient of the download mail; `SaleOrders.RecipientPrecedence` states its order of precedence |
| SaleOrders.FirstNonEmptyAt | addons/fotoapp/models/sale_order.py:199-204 | a non-empty candidate preceded only by empty ones is the one chosen |
| SaleOrders.SendDownloadEmail | addons/fotoapp/models/sale_order.py:188-226 | no recipient means no mail and no change; a mail goes out exactly when there is a recipient and the order was not already mailed under a live token, and then to the recipient; with a recipient the order ends up marked as mailed |
| SaleOrders.MailedAtMostOncePerToken | addons/fotoapp/models/sale_order.py:208-226 | a second call right after the first sends no mail |
| SaleOrders.ExpiredTokenIsMailed | addons/fotoapp/models/sale_order.py:188-226 | an order with an expired token and a recipient gets a new 30-day token and a mail |
| SaleOrders.DeliveryEmailRemembered | addons/fotoapp/models/sale_order.py:205-206 | the latest transaction's e-mail is stored as the delivery e-mail when none was set |
| SaleOrders.SendDownloadEmails | addons/fotoapp/models/sale_order.py:188-227 | every order of the recordset is handled in turn and no other order changes |
| SaleOrders.WriteKeepsUnique | addons/fotoapp/models/plan_subscription.py:169-181 | a write the one-active-plan constraint lets through keeps at most one active plan per photographer |
| Partners.GetWatermarkPayload | addons/fotoapp/models/res_partner.py:119-125 | the payload carries the partner's image, the opacity clamped into [0, 100] and the scale into [0.05, 1.0]; in-range values pass unchanged and out-of-range ones go to the nearer bound |
| Partners.WatermarkPayloadStable | addons/fotoapp/models/res_partner.py:119-125 | clamping is idempotent: a partner whose settings are the payload's values yields the same payload |
| Partners.SubscriptionsOf | addons/fotoapp/models/res_partner.py:58-63 | `plan_subscription_ids` holds exactly the partner's photographer-plan subscriptions |
| Partners.ActiveSubscriptionChoice | addons/fotoapp/models/res_partner.py:127-133 | there is no active subscription exactly when the partner has no photographer subscription in trial, active or grace; otherwise it is such a subscription of the partner and the partner's plan is its plan |
| Partners.ComputeActiveSubscription | addons/fotoapp/models/res_partner.py:127-133 | every partner of the recordset gets its active subscription and plan recomputed; no other partner changes |
| Partners.AssetsOf | addons/fotoapp/models/res_partner.py:135-142 | the photographer's photos are exactly the photos whose photographer is the partner |
| Partners.MetricsAfterNewPhoto | addons/fotoapp/models/res_partner.py:135-142 | a new photo of the photographer raises the photo count by one and the stored bytes by its size, and leaves event count, album count and gross sales alone |
| Partners.StorageAfterNewPhoto | addons/fotoapp/models/res_partner.py:135-142 | total storage grows by the new photo's size when it is the photographer's and stays the same otherwise |
| Partners.SalesAfterNewPhoto | addons/fotoapp/models/res_partner.py:135-142 | a new unsold photo leaves the gross sales total unchanged |
| Partners.AssetsOfFresh | addons/fotoapp/models/res_partner.py:135-142 | the photographer's photos after an insertion are the old ones plus the new photo when it is theirs |
| Partners.WriteHooks | addons/fotoapp/models/res_partner.py:144-152 | a write regenerates watermarks exactly when one of the watermark fields is written, and ensures the default plan exactly when it sets `is_photographer` to true |
| Partners.RegenerationTargets | addons/fotoapp/models/res_partner.py:154-163 | the photos regenerated are exactly the photographer's published photos |
| Partners.NewIsPhotographer | addons/fotoapp/models/res_partner.py:165-170 | a partner created without `is_photographer` is a photographer; an explicit value is kept |
| Partners.EnsureOne | addons/fotoapp/models/res_partner.py:172-186 | afterwards the partner holds an active subscription; a subscription is added only when it had none, and it is the new active freemium subscription; the one-active-plan rule is preserved |
| Partners.EnsureDefaultPhotoPlan | addons/fotoapp/models/res_partner.py:172-186 | without a freemium plan nothing changes; otherwise every partner of the recordset ends up with an active subscription, no record is lost, each new record belongs to a partner that had none, and the call fails exactly when the plan has no template and some partner lacks a subscription |
| Partners.FindPlan | addons/fotoapp/models/res_partner.py:188-191 | the plan found has the requested code, and none is found exactly when no plan has it |
| Partners.NewPlanSubscription | addons/fotoapp/models/plan_subscription.py:370-410 | the new subscription is an active photographer subscription of the partner on the plan, activated today, next billed one billing cycle later |
| Partners.NewActiveKeepsUnique | addons/fotoapp/models/plan_subscription.py:169-181 | adding an active subscription for a partner without one keeps at most one active subscription per partner |
| Partners.ActivatePhotoPlan | addons/fotoapp/models/res_partner.py:193-198 | nothing is stored exactly when the plan gives no subscription template or the partner already holds an active photographer plan (the one-active-plan constraint, raised when `fotoapp_create_subscription` activates the new draft); otherwise the plan's new active subscription is added under the next fresh id; an id is drawn whenever a template exists; uniqueness of active plans is kept |
| Partners.ExtendsKeepsActive | addons/fotoapp/models/res_partner.py:172-186 | a table that keeps every record keeps every partner's active subscription |
| Partners.RefreshSkippedCases | addons/fotoapp/models/res_partner.py:200-208 | a forced refresh is never skipped; an unforced one is skipped exactly when the token's expiry lies in the future |
| Partners.RefreshSkipped | addons/fotoapp/models/res_partner.py:200-208 | the refresh is skipped without a refresh token or client credentials, or for an unforced call while the token is still valid; `Partners.RefreshSkippedCases` states both cases |
| Statements.NewLine | addons/fotoapp/models/photographer_statement.py:204-209 | a created line keeps its sale, percent, photo, order line, customer and date, and its commission and net add up to the sale |
| Statements.NetShare | addons/fotoapp/models/photographer_statement.py:204-209 | the net is the sale times the complement of the percent; with a non-negative sale and a percent in [0, 100] commission and net both lie between 0 and the sale |
| Statements.TotalsBalance | addons/fotoapp/models/photographer_statement.py:43-52 | after `_compute_totals` the sale total equals the commission total plus the payout less the adjustment, the count is the number of lines, lines and adjustment are kept, and recomputing changes nothing |
| Statements.UniformPercentTotals | addons/fotoapp/models/photographer_statement.py:43-52 | when every line carries the same percent, the commission total is that share of the sale total |
| Statements.TotalsIdempotent | addons/fotoapp/models/photographer_statement.py:43-52 | recomputing the totals a second time changes nothing |
| Statements.MonthLabel | addons/fotoapp/models/photographer_statement.py:35-41 | the `%Y-%m` label ends in a dash followed by two month digits |
| Statements.MonthLabelIdentifiesMonth | addons/fotoapp/models/photographer_statement.py:35-41 | two dates get the same label exactly when they fall in the same month of the same year |
| Statements.CronPeriod | addons/fotoapp/models/photographer_statement.py:54-60 | the monthly run's period; `Statements.CronPeriodIsPreviousMonth` states that it is the whole previous month |
| Statements.CronPeriodIsPreviousMonth | addons/fotoapp/models/photographer_statement.py:54-60 | the cron's period starts on the first of the previous month and ends on that month's last day, before the first of the current month |
| Statements.DefaultPeriodMonth | addons/fotoapp/models/photographer_statement_wizard.py:19-24 | the default month is the first day of the current month |
| Statements.WizardPeriod | addons/fotoapp/models/photographer_statement_wizard.py:26-32 | without a month the wizard fails; otherwise its period runs from the first to the last day of the chosen month, which contains the chosen date |
| Statements.AppliedPercent | addons/fotoapp/models/photographer_statement.py:82-86 | the order's own commission percent, or else its plan's, plus the plan's transaction fee; zero with neither |
| Statements.Payloads | addons/fotoapp/models/photographer_statement.py:87-100 | exactly the lines of the order that name a photographer and a photo become statement lines, each built from its order line |
| Statements.LinesFor | addons/fotoapp/models/photographer_statement.py:81-100 | the lines grouped under one photographer; `Statements.LinesForExactly` states which they are |
| Statements.GroupKeys | addons/fotoapp/models/photographer_statement.py:81-100 | the grouped photographers; `Statements.GroupKeysExact` states which they are |
| Statements.GroupKeysExact | addons/fotoapp/models/photographer_statement.py:81-100 | each photographer is grouped once, and exactly the photographers with statement lines are grouped |
| Statements.LinesForExactly | addons/fotoapp/models/photographer_statement.py:81-100 | a photographer's group holds exactly the statement lines of the qualifying lines of its eligible (confirmed, in-period, paid) orders |
| Statements.GroupOrder | addons/fotoapp/models/photographer_statement.py:87-100 | the loop over one order's lines appends that order's statement lines to the owner's group |
| Statements.GroupPayloads | addons/fotoapp/models/photographer_statement.py:77-100 | the grouping loop yields, for each photographer in order of first appearance, exactly the lines of the grouping specification |
| Statements.CurrencyFor | addons/fotoapp/models/photographer_statement.py:103 | the currency is the company's or that of one of the orders |
| Statements.StatementName | addons/fotoapp/models/photographer_statement.py:110-114 | a new statement is named after the period's month label and the photographer |
| Statements.LastMatch | addons/fotoapp/models/photographer_statement.py:104-108 | the search finds a statement of the photographer for the period, and no later one matches; nothing is found exactly when no statement matches |
| Statements.Refill | addons/fotoapp/models/photographer_statement.py:121-122 | an existing statement keeps its photographer, period, name and adjustment and takes the new lines and currency |
| Statements.NewStatement | addons/fotoapp/models/photographer_statement.py:109-124 | a created statement carries the photographer, period, month label, currency, name and lines, with no adjustment |
| Statements.Write | addons/fotoapp/models/photographer_statement.py:101-124 | writing one photographer's statement keeps every stored statement and draws at most one new id, below which every stored id stays |
| Statements.WriteAll | addons/fotoapp/models/photographer_statement.py:101-124 | writing the groups in turn keeps every stored statement, draws at most one new id per group, and keeps every stored id below the next |
| Statements.WriteSettles | addons/fotoapp/models/photographer_statement.py:101-124 | writing a photographer's group settles it: an existing statement is refilled under its id, otherwise one is created under the next id, and statements of others stay as they were |
| Statements.WriteKeepsSettled | addons/fotoapp/models/photographer_statement.py:101-124 | writing another photographer's group keeps a settled photographer settled |
| Statements.WriteNextSettles | addons/fotoapp/models/photographer_statement.py:101-124 | writing one more photographer settles them and keeps the photographers written before settled |
| Statements.WriteAllSettles | addons/fotoapp/models/photographer_statement.py:101-124 | after the loop over distinct photographers every one of them is settled |
| Statements.WriteSettledIsIdentity | addons/fotoapp/models/photographer_statement.py:101-124 | writing a settled photographer changes nothing |
| Statements.WriteAllSettledIsIdentity | addons/fotoapp/models/photographer_statement.py:101-124 | writing photographers who are all settled changes nothing |
| Statements.Generate | addons/fotoapp/models/photographer_statement.py:62-125 | nothing is generated exactly when a date is missing; otherwise every grouped photographer's statement is written |
| Statements.GenerateIdempotent | addons/fotoapp/models/photographer_statement.py:62-125 | after generation every photographer with lines in the period is settled, and generating again for the same period changes nothing |
| Statements.WriteStatements | addons/fotoapp/models/photographer_statement.py:101-124 | the writing loop leaves the table as the specification writes the groups in turn |
| Statements.GenerateCommissionStatements | addons/fotoapp/models/photographer_statement.py:62-125 | it fails and changes nothing without both dates; otherwise the table becomes the generated store |
| Statements.CronGenerateMonthlyCommissions | addons/fotoapp/models/photographer_statement.py:54-60 | the cron always succeeds and generates for the previous calendar month |
| Statements.ActionGenerateStatements | addons/fotoapp/models/photographer_statement_wizard.py:26-34 | without a month it raises and changes nothing; otherwise it generates for the chosen month and reports its label |
| Statements.ExportRow | addons/fotoapp/models/photographer_statement.py:127-138 | a row holds the photographer's name, the month label and the sale, commission and payout totals |
| Statements.PrepareExportRows | addons/fotoapp/models/photographer_statement.py:127-138 | one five-column row per statement, in order |
| Payments.AllLines | addons/fotoapp/models/payment_transaction.py:92 | a line is among the orders' lines exactly when it belongs to one of the orders |
| Payments.SyncPercent | addons/fotoapp/models/payment_transaction.py:102-106 | the first order's own percent when set, else the plan's, else zero; zero exactly when neither is set |
| Payments.SyncValues | addons/fotoapp/models/payment_transaction.py:85-116 | nothing is written when the transaction already has a photographer, has no orders, or its photo lines do not name exactly one photographer; otherwise the values name that photographer and the plan of its active subscription (else its own plan), and platform and photographer amounts split the orders' total by the percent |
| Payments.TxWithMetadata | addons/fotoapp/models/payment_transaction.py:117 | the transaction takes the photographer and keeps its orders and provider |
| Payments.OrderWithMetadata | addons/fotoapp/models/payment_transaction.py:118 | an order takes the photographer and keeps its lines |
| Payments.SyncOne | addons/fotoapp/models/payment_transaction.py:86-118 | one iteration keeps every transaction and order linked and no record is added or removed |
| Payments.SyncWritesBoth | addons/fotoapp/models/payment_transaction.py:110-118 | when the values exist, the transaction gets a photographer and amounts adding up to the orders' total, and each of its orders gets the same photographer, plan and percent |
| Payments.SyncIdempotent | addons/fotoapp/models/payment_transaction.py:85-118 | syncing a transaction a second time changes nothing |
| Payments.SyncAll | addons/fotoapp/models/payment_transaction.py:85-118 | the loop keeps every transaction and order linked and no record is added or removed |
| Payments.SyncMetadataFromOrders | addons/fotoapp/models/payment_transaction.py:85-118 | the tables become the result of syncing the recordset's transactions in turn |
| Payments.SyncTransaction | addons/fotoapp/models/payment_transaction.py:86-118 | one transaction is synced as the specification says, and no record is added |
| Payments.SyncAllStep | addons/fotoapp/models/payment_transaction.py:85-118 | syncing one more transaction extends the sync of those before it |
| Payments.SellerToken | addons/fotoapp/models/payment_transaction.py:51-69 | the token is returned exactly when there is a photographer with a non-empty token and a connected account; otherwise the error names the first missing condition |
| Payments.ScaledUnscaled | addons/fotoapp/models/payment_transaction.py:71-76 | scaling by ten to the number of decimals undoes the matching division |
| Payments.ScaledDifference | addons/fotoapp/models/payment_transaction.py:71-76 | scaling distributes over a difference and preserves order |
| Payments.RoundDownBounds | addons/fotoapp/models/payment_transaction.py:71-76 | rounding down leaves a whole number of the smallest units, and for a non-negative amount lies between zero and the amount, less than one unit below it |
| Payments.ConvertAmount | addons/fotoapp/models/payment_transaction.py:71-76 | without known decimals the amount is unchanged; otherwise it is rounded down to whole units, never above a non-negative amount and less than one unit below it |
| Payments.JoinComma | addons/fotoapp/models/payment_transaction.py:47 | one name joins to itself and no names to the empty string |
| Payments.PreferencePayload | addons/fotoapp/models/payment_transaction.py:37-49 | the payload asks for automatic return on approval, carries a marketplace fee exactly when the platform amount is non-zero (the converted amount), and names the photographer, the percent and the orders |
| Providers.StripTrailingSlashes | addons/fotoapp/models/payment_provider.py:12 | the result is a prefix of the string without a trailing slash, and only slashes were removed |
| Providers.BaseUrl | addons/fotoapp/models/payment_provider.py:8-13 | without a configured URL the inherited one is used; otherwise the URL ends in a slash |
| Providers.BaseUrlOneSlash | addons/fotoapp/models/payment_provider.py:8-13 | a configured URL keeps its text up to its trailing slashes and ends in exactly one slash, and applying the rule again changes nothing |
| Providers.BuildRequestHeaders | addons/fotoapp/models/payment_provider.py:15-21 | for Mercado Pago with a seller token the headers carry `Authorization: Bearer <token>` and keep every other inherited header and add nothing else; otherwise the inherited headers are returned as they are |
| ProfileSettings.Clean | addons/fotoapp/controllers/photographer_settings.py:182-183 | a non-empty cleaned value was posted non-empty, and cleaning never lengthens it |
| ProfileSettings.OrFalse | addons/fotoapp/controllers/photographer_settings.py:197 | an empty value clears the field; any other is written as it is |
| ProfileSettings.CheckFieldRules | addons/fotoapp/controllers/photographer_settings.py:191-210 | a URL field is an error exactly when it is non-empty and does not start with http:// or https:// and is written either way; a payout preference outside the selection is an error and is not written, an accepted one is written with the default for an empty value; a biography over 2000 characters is an error; every other field is written as posted |
| ProfileSettings.CheckAllExact | addons/fotoapp/controllers/photographer_settings.py:191-210 | after the field loop the written fields are exactly the fields whose check writes, with the check's values, every field is shown, and there are no errors exactly when every field passes |
| ProfileSettings.CheckedFieldPassed | addons/fotoapp/controllers/photographer_settings.py:191-210 | a field of an error-free loop passed its check and is written as its check says |
| ProfileSettings.FinalPayoutAsWritten | addons/fotoapp/controllers/photographer_settings.py:212-215 | the preference fallback as written: with errors or a posted preference the field values are kept |
| ProfileSettings.StoredPreferenceOverwritten | addons/fotoapp/controllers/photographer_settings.py:212-215 | a submission without a preference replaces a stored 'bank_transfer' with the default 'mercadopago' |
| ProfileSettings.FinalPayout | addons/fotoapp/controllers/photographer_settings.py:212-215 | the intended fallback: with errors or a posted preference the field values are kept; without a posted preference the stored preference, or else the default, is written |
| ProfileSettings.PayoutPreferenceKept | addons/fotoapp/controllers/photographer_settings.py:212-215 | with the intended fallback a submission without a preference keeps the stored one |
| ProfileSettings.PostedPayoutRule | addons/fotoapp/controllers/photographer_settings.py:198-204 | a non-empty preference that passes is one of the selection's codes and is written as posted |
| ProfileSettings.PostedPreferenceWritten | addons/fotoapp/controllers/photographer_settings.py:198-215 | on a form without errors a posted preference is written as posted and is one of the selection's codes |
| ProfileSettings.CheckOne | addons/fotoapp/controllers/photographer_settings.py:191-210 | one pass of the loop adds the field's check to the form state |
| ProfileSettings.PrepareProfileUpdate | addons/fotoapp/controllers/photographer_settings.py:177-217 | corrected: the errors and shown values are the field loop's, and the values to write are the loop's followed by the intended preference fallback of `ProfileSettings.FinalPayout` |
| ProfileSettings.SubmitProfile | addons/fotoapp/controllers/photographer_settings.py:48-53 | corrected: with errors the profile is unchanged; otherwise it takes the prepared values, with the intended preference fallback |
| ProfileSettings.ImageUpdate | addons/fotoapp/controllers/photographer_settings.py:242-252 | an unreadable upload is an error and writes nothing; a readable one is written; without an upload the image is cleared only when removal was asked |
| ProfileSettings.OpacityUpdate | addons/fotoapp/controllers/photographer_settings.py:254-264 | the opacity is written exactly when it parses as an integer from 0 to 100; otherwise the opacity error is reported |
| ProfileSettings.ScaleUpdate | addons/fotoapp/controllers/photographer_settings.py:266-274 | the scale is written exactly when it parses as a positive number, clamped into [0.05, 1.0]; otherwise the scale error is reported |
| ProfileSettings.WatermarkAccepted | addons/fotoapp/controllers/photographer_settings.py:240-276 | the form has no errors exactly when the image is readable or absent, the opacity is an integer from 0 to 100 and the scale is positive; then both opacity and scale are written |
| ProfileSettings.CheckWatermark | addons/fotoapp/controllers/photographer_settings.py:240-276 | the watermark form's checks, errors in page order; `ProfileSettings.WatermarkAccepted` states when it has none and that it then sets the opacity and scale |
| ProfileSettings.SavedWatermarkIsUsedAsIs | addons/fotoapp/controllers/photographer_settings.py:240-276 | the opacity and scale a valid form writes are used unchanged by the watermark payload |
| ProfileSettings.SubmitWatermark | addons/fotoapp/controllers/photographer_settings.py:240-279 | with errors the partner is unchanged; otherwise the form's values are written to that partner only |
| ProfileSettings.OAuthCallback | addons/fotoapp/controllers/photographer_settings.py:115-141 | the stored state is always consumed; the callback goes on exactly when a non-empty stored state equals the returned one, and reaches the code exchange exactly when a code and the client secret are also present, exchanging that code |
| ProfileSettings.ReplayedCallbackRejected | addons/fotoapp/controllers/photographer_settings.py:119-124 | a second callback after the first is rejected whatever it carries |
| CheckoutGuest.IsEmail | addons/fotoapp/controllers/checkout_guest.py:17 | the e-mail pattern; `CheckoutGuest.IsEmailIsShape` states the shape it accepts |
| CheckoutGuest.IsEmailIsShape | addons/fotoapp/controllers/checkout_guest.py:17 | the character-by-character check is the pattern `local@domain.tld` with no '@' or whitespace in any part |
| CheckoutGuest.EmailMatch | addons/fotoapp/controllers/checkout_guest.py:17 | `EMAIL_RE.match`, whose `$` also accepts one final newline; `CheckoutGuest.StrippedMatch` shows that on a stripped value it is exactly `CheckoutGuest.IsEmail`, whose shape `CheckoutGuest.IsEmailIsShape` states |
| CheckoutGuest.StrippedMatch | addons/fotoapp/controllers/checkout_guest.py:17 | on a stripped value Python's match (whose `$` accepts a final newline) agrees with the plain reading |
| CheckoutGuest.GuestEmailMatches | addons/fotoapp/controllers/checkout_guest.py:172-173 | the fallback address `guest@example.com` matches the pattern |
| CheckoutGuest.WithGuestDefaults | addons/fotoapp/controllers/checkout_guest.py:113-129 | a key is present after forcing exactly when it is forced or was posted |
| CheckoutGuest.GuestDefaultsForced | addons/fotoapp/controllers/checkout_guest.py:98-129 | the fixed guest name, company, city, zip, phone, VAT and streets are forced, each found lookup is forced by id, and every other key keeps its posted value |
| CheckoutGuest.ValidateAddress | addons/fotoapp/controllers/checkout_guest.py:63-157 | the address check; `CheckoutGuest.AddressRules` states its rules |
| CheckoutGuest.AddressRules | addons/fotoapp/controllers/checkout_guest.py:63-157 | a non-guest's address goes to the inherited check unchanged; a guest's is refused with only the e-mail field in error exactly when its e-mail does not match the pattern, and otherwise goes on with only the e-mail required and delivery used as billing |
| CheckoutGuest.MixedCartIff | addons/fotoapp/controllers/checkout_guest.py:52-60 | a cart is mixed exactly when two of its photo lines name different photographers |
| CheckoutGuest.CheckCart | addons/fotoapp/controllers/checkout_guest.py:159-163 | the inherited redirect wins; otherwise the cart goes back with the warning exactly when it is mixed |
| CheckoutGuest.FindByEmail | addons/fotoapp/controllers/checkout_guest.py:180-183 | the contact found has the e-mail and is not the website's partner; none is found exactly when no such contact exists |
| CheckoutGuest.NewContact | addons/fotoapp/controllers/checkout_guest.py:184-188 | a created contact has the name and e-mail, is its own commercial partner and is not a photographer |
| CheckoutGuest.WithCustomer | addons/fotoapp/controllers/checkout_guest.py:193-200 | the order gets the contact as customer and the e-mail as delivery e-mail, and keeps its lines, state and photographer |
| CheckoutGuest.ResolveContact | addons/fotoapp/controllers/checkout_guest.py:180-191 | a contact other than the website's with the e-mail is found exactly when one exists, and then it is reused and nothing changes; otherwise a contact with the given name and e-mail is created under the next id; either way the contact carries the e-mail and is not the website's |
| CheckoutGuest.SubmitEmail | addons/fotoapp/controllers/checkout_guest.py:171-173 | the posted e-mail, else the customer's, is used when it matches the pattern, else the fallback; the result always matches |
| CheckoutGuest.SubmitGuestAddress | addons/fotoapp/controllers/checkout_guest.py:165-208 | the e-mail used matches the pattern, a contact with it exists afterwards, and the order, if any, is given that contact |
| CheckoutGuest.RequestedEmail | addons/fotoapp/controllers/checkout_guest.py:249-255 | the keyword argument wins, then the body's `email`, then its `params.email` |
| CheckoutGuest.GuestEmailAsWritten | addons/fotoapp/controllers/checkout_guest.py:249-262 | as written, an e-mail passed as keyword argument makes the endpoint raise; without one the e-mail read is the one `CheckoutGuest.RequestedEmail` gives |
| CheckoutGuest.KeywordEmailRaises | addons/fotoapp/controllers/checkout_guest.py:249-262 | the well-formed keyword e-mail `guest@example.com` raises as written, where the intended reading takes it first and it matches |
| CheckoutGuest.SetGuestEmail | addons/fotoapp/controllers/checkout_guest.py:243-298 | as written: it raises exactly when the e-mail comes as keyword argument; it answers `ok` exactly when there is no keyword, there is a cart and the stripped payload e-mail matches; otherwise nothing changes; on success the contact found for the e-mail, or a new one named by it under the next id, becomes the cart's customer with that e-mail |
| CheckoutGuest.CustomerFallback | addons/fotoapp/controllers/checkout_guest.py:312-317 | the customer's e-mail is used unless the customer is the website's partner |
| CheckoutGuest.TransactionEmailOrder | addons/fotoapp/controllers/checkout_guest.py:307-321 | the posted guest e-mail wins, then the order's delivery e-mail, then the customer's |
| CheckoutGuest.TransactionEmail | addons/fotoapp/controllers/checkout_guest.py:307-321 | the payment e-mail: the keyword, else the form value, stripped, else the order's delivery e-mail, else the customer fallback; `CheckoutGuest.TransactionEmailOrder` states this precedence |
| CheckoutGuest.PaymentTransaction | addons/fotoapp/controllers/checkout_guest.py:300-378 | the transaction proceeds exactly when there is an order and the chosen e-mail (`CheckoutGuest.TransactionEmail`) matches; otherwise nothing changes and an error is returned; on success the contact found for that e-mail, or a new one named by it under the next id, becomes the order's customer with that e-mail |
| Gallery.EventPage | addons/fotoapp/controllers/gallery.py:90-97 | the page finds an event with the slug that is published, and finds none exactly when no such event exists |
| Gallery.PublicAlbums | addons/fotoapp/controllers/gallery.py:25-30 | the listed albums are exactly the event's published, non-private albums |
| Gallery.AlbumPageIffListed | addons/fotoapp/controllers/gallery.py:109-124 | an album opens by id exactly when the event page lists it |
| Gallery.AlbumPhotos | addons/fotoapp/controllers/gallery.py:125-129 | the album page shows exactly the album's web-published, non-archived photos |
| Gallery.Quantity | addons/fotoapp/controllers/gallery.py:144-148 | the quantity is at least one, and one when none is posted |
| Gallery.QuantityOfPrinted | addons/fotoapp/controllers/gallery.py:144-148 | a posted number comes back as itself when positive and as one otherwise |
| Gallery.QuantityOfGarbage | addons/fotoapp/controllers/gallery.py:144-148 | text that is not an integer counts as one |
| Gallery.FindLine | addons/fotoapp/controllers/gallery.py:184 | the line found is the first from the given position that sells the product; none is found exactly when no such line exists |
| Gallery.CartUpdate | addons/fotoapp/controllers/gallery.py:184-188 | the cart keeps its lines or gains one at the end, afterwards a line sells the product for the photo and photographer, lines of other products are untouched, and nothing but the lines changes |
| Gallery.WithPhoto | addons/fotoapp/controllers/gallery.py:184-195 | after adding, the order carries the photo's photographer, a line holds the photo, and platform and photographer shares add up to the order total |
| Gallery.AddKeepsOnePhotographer | addons/fotoapp/controllers/gallery.py:174-195 | adding a photo of the cart's own photographer (or to a cart without one) leaves exactly that one photographer in the cart |
| Gallery.AddTo | addons/fotoapp/controllers/gallery.py:174-195 | the add is refused, leaving the cart as it was, exactly when the cart's first photographer is another one; otherwise the photo is added |
| Gallery.AddToSessionCart | addons/fotoapp/controllers/gallery.py:173-195 | the session cart, or a new order under the next id, becomes the result of the add |
| Gallery.AddPhotoToCart | addons/fotoapp/controllers/gallery.py:142-203 | a missing, unpublished or archived photo is refused and nothing changes; a photo without a sale product is refused and nothing changes; otherwise the cart becomes the result of the add with the posted quantity |
| AlbumPortal.AssetFor | addons/fotoapp/controllers/portal_base.py:70-74 | a photo is found exactly when the posted id names a photo of the partner |
| AlbumPortal.Basename | addons/fotoapp/controllers/photographer_albums.py:150 | the base name is a suffix of the path without a '/', preceded by a '/' when shorter than the path |
| AlbumPortal.UploadFileName | addons/fotoapp/controllers/photographer_albums.py:146-152 | there is no name exactly when the stripped base name is empty; otherwise it is that name cut to at most 120 characters, uncut when it fits |
| AlbumPortal.NameHasNoSlash | addons/fotoapp/controllers/photographer_albums.py:146-152 | a stored name never holds a '/' |
| AlbumPortal.PlainNameKept | addons/fotoapp/controllers/photographer_albums.py:146-152 | a plain, stripped name of at most 120 characters is kept as it is |
| AlbumPortal.DirectoryDropped | addons/fotoapp/controllers/photographer_albums.py:146-152 | whatever precedes the last '/' never reaches the name |
| AlbumPortal.BasenameOfJoin | addons/fotoapp/controllers/photographer_albums.py:150 | the base name of a directory joined to a plain name is that name |
| AlbumPortal.DownloadLimit | addons/fotoapp/controllers/photographer_albums.py:44 | an absent or empty limit is zero; otherwise it is the posted text read as an integer |
| AlbumPortal.UpdatedAlbum | addons/fotoapp/controllers/photographer_albums.py:37-46 | the update fails exactly when the limit is not an integer; otherwise the album takes the stripped name, the privacy switch and the limit, becomes draft when private and published otherwise, and keeps everything else |
| AlbumPortal.SwitchDecidesVisibility | addons/fotoapp/controllers/photographer_albums.py:37-46 | after the update the album is publicly listed exactly when it is not private |
| AlbumPortal.RunUploads | addons/fotoapp/controllers/photographer_albums.py:67-89 | the upload loop's specification: empty files are skipped, the first file over the quota stops the run, every other file is kept and grows the usage; `AlbumPortal.RunAccountsForFiles`, `AlbumPortal.RunStaysWithinQuota` and `AlbumPortal.NoSubscriptionTakesAll` state what it keeps |
| AlbumPortal.UploadLoop | addons/fotoapp/controllers/photographer_albums.py:67-89 | the loop yields the files created, the count skipped and whether the storage limit stopped it, as `AlbumPortal.RunUploads` says |
| AlbumPortal.RunAccountsForFiles | addons/fotoapp/controllers/photographer_albums.py:67-89 | created and skipped files never outnumber the uploads and account for all of them unless the limit stopped the loop; every created file is a non-empty upload |
| AlbumPortal.RunStaysWithinQuota | addons/fotoapp/controllers/photographer_albums.py:65-78 | with a subscription whose plan has a storage limit, the bytes stored plus the created files never exceed the limit |
| AlbumPortal.NoSubscriptionTakesAll | addons/fotoapp/controllers/photographer_albums.py:65-78 | without a subscription the loop is never stopped and exactly the non-empty files are created |
| AlbumPortal.AllPhotoVals | addons/fotoapp/controllers/photographer_albums.py:80-88 | one value set per created file, in upload order |
| AlbumPortal.UploadPhotos | addons/fotoapp/controllers/photographer_albums.py:51-101 | a non-numeric price or no files creates nothing and renders the page; when files would be created but the price is not positive, the photo's price constraint raises and nothing is created; the page redirects exactly when the price is numeric and positive and some file is created, and then one value set per created file, all with a positive price |
| AlbumPortal.UploadReportCounts | addons/fotoapp/controllers/photographer_albums.py:90-99 | a successful upload reports the number created, and without the limit created plus skipped equals the files uploaded |
| AlbumPortal.PrepareUpload | addons/fotoapp/controllers/photographer_albums.py:51-101 | the page's side of the upload action gives the value sets and the response of the upload specification `AlbumPortal.UploadPhotos` |
| AlbumPortal.CreateInAlbum | addons/fotoapp/controllers/photographer_albums.py:80-88 | creating the value sets with `album_ids: [(4, album.id)]` succeeds exactly when every value set is admissible and every price positive; then the photos are created as `Assets.Create` says and the album's photos grow by exactly the created ids; a refusal changes nothing |
| AlbumPortal.UploadPhoto | addons/fotoapp/controllers/photographer_albums.py:51-101 | the upload action on the tables: when the page would not redirect nothing is stored and its response is returned; when `create` refuses a value set the error is raised and nothing is stored; otherwise the response is the planned one, one photo is created per kept file as `Assets.Create` says, and the album's photos grow by exactly those photos |
| AlbumPortal.PriceUpdate | addons/fotoapp/controllers/photographer_albums.py:110-127 | the price is written exactly when there are no errors, and then the photo exists and the price is a positive number; a non-numeric price reports that error first; a missing photo is reported |
| AlbumPortal.NameUpdate | addons/fotoapp/controllers/photographer_albums.py:128-140 | the name is written exactly when there are no errors, and then the photo exists and the name is the non-empty stripped text; an empty name of an existing photo is the only error |
| AlbumPortal.UpdatePhotoPrice | addons/fotoapp/controllers/photographer_albums.py:110-127 | with errors the page is rendered and nothing changes; otherwise only the photo's price is written and the page redirects |
| AlbumPortal.UpdatePhotoName | addons/fotoapp/controllers/photographer_albums.py:128-140 | with errors the page is rendered and nothing changes; otherwise only the photo's name is written and the page redirects |
| AlbumPortal.AcceptedPriceIsPositive | addons/fotoapp/controllers/photographer_albums.py:121-124 | an accepted price keeps the photo's positive-price check satisfied |
| AlbumPortal.AlbumAction | addons/fotoapp/controllers/photographer_albums.py:21-50 | delete removes the album together with its photos (and drops those photos from the other albums); update writes the updated album or fails and changes nothing; publish and archive apply the album's own actions; only delete touches the photo table, and no id is drawn |
| AlbumPortal.PhotoStateAction | addons/fotoapp/controllers/photographer_albums.py:102-109 | a photo of another photographer is left alone; the partner's photo is archived or published |
| AlbumPortal.ArchivedPhotoHidden | addons/fotoapp/controllers/photographer_albums.py:106-107 | an archived photo is no longer shown in the public gallery |
| EventPortal.ParseStateFilter | addons/fotoapp/controllers/photographer_events.py:20 | a state filter is set only for 'borrador', 'publicado' or 'archivado' |
| EventPortal.StateFilterKeys | addons/fotoapp/controllers/photographer_events.py:20 | each of the three listed states is read back from its key; any other state's key lists all events |
| EventPortal.EventList | addons/fotoapp/controllers/photographer_events.py:18-26 | the list shows exactly the partner's events, in the filtered state when a filter is set, whose name or category name contains the stripped search term, in the given order |
| EventPortal.ExclusiveCounts | addons/fotoapp/controllers/photographer_events.py:27-32 | three mutually exclusive conditions, each implying a fourth, count together no more than the fourth |
| EventPortal.StatsBound | addons/fotoapp/controllers/photographer_events.py:27-32 | the draft, published and archived counters never add up to more than the partner's events |
| EventPortal.Offered | addons/fotoapp/controllers/photographer_events.py:49-54 | the forms offer exactly the published categories shown on the homepage and on the website |
| EventPortal.CreateErrors | addons/fotoapp/controllers/photographer_events.py:74-87 | the create form has no errors exactly when the stripped name is non-empty, an offered category is chosen and the date parses; each failing check adds its own error |
| EventPortal.UpdateErrors | addons/fotoapp/controllers/photographer_events.py:141-149 | the update form has no errors exactly when an offered category is chosen and the date parses; the name is never checked |
| EventPortal.CreateEvent | addons/fotoapp/controllers/photographer_events.py:74-104 | with form errors nothing is created and the errors are returned; a form whose slug or token clashes with a stored event reports the unique-constraint error and changes nothing; otherwise one event is added under a fresh id, created from the form's values, and uniqueness is kept |
| EventPortal.InsertEvent | addons/fotoapp/controllers/photographer_events.py:103 | the event is created under a fresh id exactly when the unique constraints allow it, and nothing changes otherwise |
| EventPortal.CreatedEventIsPrivateDraft | addons/fotoapp/controllers/photographer_events.py:89-100 | a created event is the partner's, a draft, off the website, with the form's name and category |
| EventPortal.UpdateEvent | addons/fotoapp/controllers/photographer_events.py:140-166 | the errors are the update form's; with errors nothing changes; otherwise only that event is written with the stripped name and the category, which sets no slug or token and so never breaks the unique constraints of a table that holds them |
| EventPortal.ParseAction | addons/fotoapp/controllers/photographer_events.py:138 | a missing or empty action is the update |
| EventPortal.ActionNames | addons/fotoapp/controllers/photographer_events.py:138-173 | each action name reaches its own action |
| EventPortal.StateAction | addons/fotoapp/controllers/photographer_events.py:167-173 | publish and archive apply the event's own actions and touch nothing else; delete removes the event and its photos; an unknown action changes nothing |
| EventPortal.CreateAlbum | addons/fotoapp/controllers/photographer_events.py:178-197 | an empty stripped name creates nothing and reports the missing name; otherwise the album is created through `Albums.Create`, which refuses a portal token already in use and then changes nothing; on success one album with that name is added to the event under a fresh id, as a private draft with no photos and the drawn token, and tokens stay unique |
| DebtPortal.Owners | addons/fotoapp/controllers/photographer_debts.py:20-22 | the owners are the partner and, when set, its commercial partner, and no one else |
| DebtPortal.ActiveDebts | addons/fotoapp/controllers/photographer_debts.py:23-25 | the active list holds exactly the owners' debts that can still be paid |
| DebtPortal.ActiveDebtsByDueDate | addons/fotoapp/controllers/photographer_debts.py:23-25 | no active debt is listed before one due earlier |
| DebtPortal.PaidDebts | addons/fotoapp/controllers/photographer_debts.py:26 | at most 50 debts are listed, each a paid debt of the owners |
| DebtPortal.PaidDebtsComplete | addons/fotoapp/controllers/photographer_debts.py:26 | when the owners have no more than 50 paid debts, every one of them is listed |
| DebtPortal.ReusableOrder | addons/fotoapp/controllers/photographer_debts.py:46-47 | the debt's own order is reused exactly when it exists and is still a quotation |
| DebtPortal.WithCart | addons/fotoapp/controllers/photographer_debts.py:46-49 | with a reusable order or a session cart the orders are unchanged; otherwise the new cart is added under the next id |
| DebtPortal.DebtLine | addons/fotoapp/controllers/photographer_debts.py:82-89 | the line pays the debt with the renewal product, quantity one, priced at the debt's amount, with no photo or photographer |
| DebtPortal.PlaceLine | addons/fotoapp/controllers/photographer_debts.py:78-89 | the debt line is appended last; a previous line of the debt in this order is removed and no other line is; nothing but the lines changes |
| DebtPortal.Charged | addons/fotoapp/controllers/photographer_debts.py:90-93 | the debt points at the order and its new last line, and nothing else of the debt changes |
| DebtPortal.AddDebtToCart | addons/fotoapp/controllers/photographer_debts.py:35-95 | a debt that is missing, another partner's or not payable is refused and nothing changes; without the renewal product only the cart is created; otherwise the debt line is placed in the chosen order and the debt points at it |
| DebtPortal.KeepDistinct | addons/fotoapp/controllers/photographer_debts.py:78-80 | removing lines keeps every debt paid by at most one line |
| DebtPortal.PlacingKeepsCartsLinked | addons/fotoapp/controllers/photographer_debts.py:78-93 | placing the line keeps every open order's debt lines pointing at their debts, and the new line is the debt's only line in the order |
| DebtPortal.PlacedCartLinked | addons/fotoapp/controllers/photographer_debts.py:78-93 | the order the line is placed in pays each debt at most once, and each of its debt lines is the one its debt points at |
| DebtPortal.PlacedPrefix | addons/fotoapp/controllers/photographer_debts.py:78-89 | the lines before the new one are old lines of the order, none of them for the debt, and they pay each debt at most once |
| DebtPortal.OtherCartLinked | addons/fotoapp/controllers/photographer_debts.py:90-93 | pointing the debt at one order leaves every other open order's debt lines linked |
| DebtPortal.ChosenOrderFits | addons/fotoapp/controllers/photographer_debts.py:46-49 | the chosen order is open and linked, and it is the debt's own order whenever that one is reusable |
| ManualPayment.CartPhotographerOf | addons/fotoapp/controllers/manual_payment.py:16-22 | the cart has several photographers exactly when its photo lines name more than one, none exactly when no line names one, and otherwise the one every photo line names |
| ManualPayment.Safe | addons/fotoapp/controllers/manual_payment.py:36-37 | a value is shown as it is, and a missing one as "No informado"; the result is never empty |
| ManualPayment.ContactFallbacks | addons/fotoapp/controllers/manual_payment.py:39-47 | no field of the card is empty; WhatsApp falls back from `phone_whatsapp` to `mobile` to `phone`, and the alias from `bank_alias` to `payout_account` |
| ManualPayment.ContactOf | addons/fotoapp/controllers/manual_payment.py:39-47 | the photographer's contact card; `ManualPayment.ContactFallbacks` states that no field is empty and the WhatsApp and alias fallbacks |
| ManualPayment.ManualPaymentPage | addons/fotoapp/controllers/manual_payment.py:24-50 | an empty or missing cart goes back with the empty-cart warning; a cart with several photographers, or with none, goes back with its own warning exactly in that case; otherwise the card shows the photographer every photo line names |
| OrderPortal.AllowedOrder | addons/fotoapp/controllers/order_portal.py:11-18 | the order is allowed exactly when it exists and its customer's commercial partner is the user's |
| OrderPortal.OwnershipNeedsConfirmedOrder | addons/fotoapp/controllers/order_portal.py:35-40 | a user none of whose orders is confirmed owns no photo |
| OrderPortal.UserHasAsset | addons/fotoapp/controllers/order_portal.py:35-40 | some order of the user's commercial partner, confirmed (`sale` or `done`), has a line for the photo; `OrderPortal.OwnershipNeedsConfirmedOrder` shows quotations give no right, and `OrderPortal.DownloadPhoto` serves a photo only when it holds |
| OrderPortal.Links | addons/fotoapp/controllers/order_portal.py:24-33 | a link is listed exactly for each photo whose token is non-empty, pointing at `/fotoapp/download/<token>` |
| OrderPortal.LinksDistinct | addons/fotoapp/controllers/order_portal.py:24-33 | distinct photos get at most one link each |
| OrderPortal.IssuedTokens | addons/fotoapp/controllers/order_portal.py:23 | the tokens read back are the photos' stored download tokens, in order |
| OrderPortal.PhotoAssetsKnown | addons/fotoapp/controllers/order_portal.py:21-22 | the photos of the order's lines are records of the photo table |
| OrderPortal.PrepareDownloads | addons/fotoapp/controllers/order_portal.py:20-33 | each photo of the order gets its download token ensured and every other photo is untouched; the links are built from the stored tokens |
| OrderPortal.EveryPhotoLinked | addons/fotoapp/controllers/order_portal.py:24-33 | with non-empty tokens every photo of the order gets a link |
| OrderPortal.DownloadName | addons/fotoapp/controllers/order_portal.py:70 | the attachment is named after the photo, or `foto_<id>.jpg` when it has no name; never empty |
| OrderPortal.FindByToken | addons/fotoapp/controllers/order_portal.py:64 | the photo search by download token: none exactly when no photo in the search order has the token; otherwise the first that has it |
| OrderPortal.Downloaded | addons/fotoapp/controllers/order_portal.py:75-78 | a download adds one to the count and stamps the time; nothing else of the photo changes |
| OrderPortal.DownloadPhoto | addons/fotoapp/controllers/order_portal.py:62-79 | the photo is refused, and nothing changes, exactly when no photo has the token, it has no image, or the user owns it through no confirmed order; otherwise that photo's file is returned under its name and its download is counted |
| Downloads.LowerKeepsDots | addons/fotoapp/controllers/download.py:40 | lower-casing neither adds nor removes a dot |
| Downloads.DefaultNameHasNoDot | addons/fotoapp/controllers/download.py:38 | `foto_<id>` has no dot |
| Downloads.EntryName | addons/fotoapp/controllers/download.py:38-41 | every entry name has a dot: a dotted name is kept, an undotted one gets `.jpg`, and a nameless photo is `foto_<id>.jpg` |
| Downloads.ZipEntries | addons/fotoapp/controllers/download.py:29-42 | the archive holds exactly one entry per photo of the order that has an image that decodes |
| Downloads.WriteEntries | addons/fotoapp/controllers/download.py:29-42 | the loop writes the entries the archive specification lists, in order |
| Downloads.OrderOfToken | addons/fotoapp/controllers/download.py:17 | `search([('download_token', '=', token)], limit=1)`: none exactly when no order in the search order has the token; otherwise the first that has it |
| Downloads.ZipResponse | addons/fotoapp/controllers/download.py:16-48 | an unknown token or one without expiry is an invalid link, an expired one shows the expired page, an order without photos has none to send, and otherwise the archive of the order's photos is sent |
| Downloads.DownloadZip | addons/fotoapp/controllers/download.py:16-48 | `download_zip` answers as the response specification says |
| Milestones.BonusAmount | addons/SYNARA-project-bonuses/models/project_milestone.py:42-45 | the bonus is `bonus_percentage` percent of the milestone amount |
| Milestones.TotalCost | addons/SYNARA-project-bonuses/models/project_milestone.py:47-53 | the cost is the milestone amount, and exceeds it by exactly the bonus when the bonus status is paid |
| Milestones.Progress | addons/SYNARA-project-bonuses/models/project_milestone.py:65-68 | progress times planned hours equals effective hours times 100 when hours are planned, and 0 otherwise |
| Milestones.FullProgressIffHoursSpent | addons/SYNARA-project-bonuses/models/project_milestone.py:65-68 | progress reaches 100 percent exactly when the effective hours reach the planned hours |
| Milestones.StartStatus | addons/SYNARA-project-bonuses/models/project_milestone.py:72-76 | a paid start payment stays paid; an unpaid one becomes to_pay exactly when progress reaches the required percentage, otherwise draft |
| Milestones.StartStatusIdempotent | addons/SYNARA-project-bonuses/models/project_milestone.py:72-76 | re-evaluating the start payment a second time changes nothing |
| Milestones.Recomputed | addons/SYNARA-project-bonuses/models/project_milestone.py:56-76 | planned and effective hours are the sums over the milestone's tasks, progress and start status follow from them, and no other field changes |
| Milestones.ComputeHoursAndProgress | addons/SYNARA-project-bonuses/models/project_milestone.py:55-76 | every milestone of the set is recomputed from its own tasks, every other milestone and the id counter are unchanged |
| Milestones.BonusStatusAfter | addons/SYNARA-project-bonuses/models/project_milestone.py:89-106 | a paid bonus stays paid; otherwise to_pay when reached and completed (deadline, else today) on or before the planned end, not_eligible when reached otherwise, draft when not reached |
| Milestones.Rewritten | addons/SYNARA-project-bonuses/models/project_milestone.py:78-108 | a write stores the values, re-evaluates the start payment only when the required percentage is written and the bonus only when is_reached or a date is written |
| Milestones.PaidStatusesAreFinal | addons/SYNARA-project-bonuses/models/project_milestone.py:72-106 | neither the recomputation nor a write re-evaluation turns a paid status into anything else |
| Milestones.RewriteIdempotent | addons/SYNARA-project-bonuses/models/project_milestone.py:78-108 | writing the same values twice on the same day gives the same milestone as writing them once |
| Milestones.Write | addons/SYNARA-project-bonuses/models/project_milestone.py:78-108 | exactly the milestones of the set are replaced by their rewritten versions |
| Milestones.MarkStartPaymentPaid | addons/SYNARA-project-bonuses/models/project_milestone.py:110-112 | only the one milestone's start payment status changes, to paid |
| Milestones.MarkBonusPaymentPaid | addons/SYNARA-project-bonuses/models/project_milestone.py:114-116 | only the one milestone's bonus status changes, to paid |
| Milestones.MarkingBonusPaidAddsBonus | addons/SYNARA-project-bonuses/models/project_milestone.py:47-53 | marking an unpaid bonus paid raises the total cost by exactly the bonus amount |
| Milestones.StartPaymentScenario | addons/SYNARA-project-bonuses/tests/test_milestone_payment.py:36-60 | with 10 planned hours and the default 10 percent threshold, 0.5 effective hours leave the start payment draft at 5 percent and 1 hour makes it to_pay at 10 percent |
| Tasks.MilestoneTasks | addons/SYNARA-project-bonuses/models/project_milestone.py:37 | the milestone's tasks are exactly the tasks whose milestone is that one |
| MilestoneLinkWizard.AlreadyLinked | addons/SYNARA-project-bonuses/wizard/project_milestone_link_task.py:19-20 | the selected tasks listed are exactly those that already have a milestone |
| MilestoneLinkWizard.ComputeWarning | addons/SYNARA-project-bonuses/wizard/project_milestone_link_task.py:14-24 | the message built item by item is the warning function of the selection |
| MilestoneLinkWizard.AppendEntries | addons/SYNARA-project-bonuses/wizard/project_milestone_link_task.py:21-23 | the loop appends one item per already-linked task, in selection order |
| MilestoneLinkWizard.WarningEmptyIff | addons/SYNARA-project-bonuses/wizard/project_milestone_link_task.py:14-24 | the warning is empty exactly when no selected task has a milestone |
| MilestoneLinkWizard.EntriesOnePerTask | addons/SYNARA-project-bonuses/wizard/project_milestone_link_task.py:21-23 | the list holds one item per already-linked task, concatenated in order |
| MilestoneLinkWizard.LinkTasks | addons/SYNARA-project-bonuses/wizard/project_milestone_link_task.py:26-30 | every selected task is linked to the wizard's milestone, nothing else changes, and an empty selection writes nothing |
| MilestoneLinkWizard.LinkedTasksMoved | addons/SYNARA-project-bonuses/wizard/project_milestone_link_task.py:26-30 | after linking, each selected task differs from before only in its milestone, which is the wizard's; unselected tasks are unchanged |
| ObjectiveBonus.LastUpdate | addons/SYNARA-project-bonuses2/models/project_milestone.py:66 | the latest stage update is at least every task's and is some task's |
| ObjectiveBonus.BonusOf | addons/SYNARA-project-bonuses2/models/project_milestone.py:43-75 | the total is the sum of the task values; pending without tasks or planned start or while a task is open; qualified exactly when every task is closed no later than the planned start, with payout total times percent over 100; otherwise payout 0 |
| ObjectiveBonus.PayoutOnlyWhenQualified | addons/SYNARA-project-bonuses2/models/project_milestone.py:51-75 | a nonzero payout implies a qualified objective |
| ObjectiveBonus.FailedIffLateTask | addons/SYNARA-project-bonuses2/models/project_milestone.py:58-75 | with a planned start and every task closed, the objective fails exactly when some task was last updated after the planned start |
| TaskBonus.IndividualPayout | addons/SYNARA-project-bonuses2/models/project_task.py:46-54 | a task of a qualified objective is paid its value times the percent over 100, any other task 0 |
| TaskBonus.SumOfPayouts | addons/SYNARA-project-bonuses2/models/project_task.py:46-54 | the payouts of an objective's tasks sum to the objective value times the percent when qualified, 0 otherwise |
| TaskBonus.PayoutsAddUp | addons/SYNARA-project-bonuses2/models/project_task.py:46-54 | the tasks' individual payouts add up to the objective's total payout |
| TaskBonus.Toggled | addons/SYNARA-project-bonuses2/models/project_task.py:56-58 | the paid flag is negated and nothing else changes |
| TaskBonus.ToggleBonusPaid | addons/SYNARA-project-bonuses2/models/project_task.py:56-58 | exactly the tasks of the set have their paid flag negated |
| TaskBonus.ToggleTwiceRestores | addons/SYNARA-project-bonuses2/models/project_task.py:56-58 | toggling the same tasks twice restores every task |
| ModuleInstaller.Classify | addons/SYNARA_base/wizard/module_installer_wizard.py:68-75 | installed exactly when the module exists in state installed, to install when it exists in any other state, missing when no module has the name |
| ModuleInstaller.Row | addons/SYNARA_base/wizard/module_installer_wizard.py:56-66 | a cell that is empty, not text or blank stops the scan; a stripped name that is a header caption (compared in lower case) is skipped; anything else is the stripped, non-blank name |
| ModuleInstaller.Rows | addons/SYNARA_base/wizard/module_installer_wizard.py:55-66 | one row kind per cell of the column, in order |
| ModuleInstaller.Collect | addons/SYNARA_base/wizard/module_installer_wizard.py:55-81 | the collected lines are never more than the rows |
| ModuleInstaller.ScanColumn | addons/SYNARA_base/wizard/module_installer_wizard.py:55-81 | the scan of a column yields at most one line per cell |
| ModuleInstaller.CollectedLinesClassified | addons/SYNARA_base/wizard/module_installer_wizard.py:62-81 | every collected line carries a stripped, non-blank, non-header name and that module's status |
| ModuleInstaller.ScannedLinesClassified | addons/SYNARA_base/wizard/module_installer_wizard.py:55-81 | every scanned line names a module by its stripped cell text and carries the module's status |
| ModuleInstaller.CollectStep | addons/SYNARA_base/wizard/module_installer_wizard.py:58-81 | one loop step: a stop row ends the list, a header row adds nothing, a module row adds exactly its classified line |
| ModuleInstaller.CollectStopsAt | addons/SYNARA_base/wizard/module_installer_wizard.py:58-60 | rows after a stop row contribute nothing |
| ModuleInstaller.ScanStopsAtFirstBlank | addons/SYNARA_base/wizard/module_installer_wizard.py:58-60 | nothing below the first cell that stops the scan is read |
| ModuleInstaller.CollectInOrder | addons/SYNARA_base/wizard/module_installer_wizard.py:55-81 | before any stop, the lines of consecutive rows are the lines of each part, in order |
| ModuleInstaller.ScanInSheetOrder | addons/SYNARA_base/wizard/module_installer_wizard.py:55-81 | scanning two stretches of the sheet without a stop gives their lines one after the other, in sheet order |
| ModuleInstaller.NameLeTotal | addons/SYNARA_base/wizard/module_installer_wizard.py:17 | the name ordering compares any two names |
| ModuleInstaller.LineLeTotal | addons/SYNARA_base/wizard/module_installer_wizard.py:17 | the line ordering by status, then name, compares any two lines |
| ModuleInstaller.Insert | addons/SYNARA_base/wizard/module_installer_wizard.py:17 | inserting a line adds exactly that line, as a permutation |
| ModuleInstaller.InsertKeepsSorted | addons/SYNARA_base/wizard/module_installer_wizard.py:17 | inserting into status-then-name ordered lines keeps them ordered |
| ModuleInstaller.ReadOrder | addons/SYNARA_base/wizard/module_installer_wizard.py:17 | the lines as read are a permutation of the stored lines |
| ModuleInstaller.ReadOrderSorted | addons/SYNARA_base/wizard/module_installer_wizard.py:17 | the lines as read are ordered by status, then name |
| ModuleInstaller.InstallerWizard.AnalyzeFile | addons/SYNARA_base/wizard/module_installer_wizard.py:38-98 | without a file, or with an unreadable one, an error and nothing changes; otherwise the lines become exactly the scanned lines and the state review |
| ModuleInstaller.InstallerWizard.GenerateReport | addons/SYNARA_base/wizard/module_installer_wizard.py:100-113 | a new draft log holds a copy of every line, name and status, ordered by status then name, and no other line |
| InstallationLogs.ToInstallNames | addons/SYNARA_base/models/installation_log.py:16-36 | a name is to be installed exactly when some line with that name is marked to install |
| InstallationLogs.InstallationLog.constructor | addons/SYNARA_base/models/installation_log.py:9-12 | a new log is draft and holds the given lines |
| InstallationLogs.InstallationLog.ExecuteInstallation | addons/SYNARA_base/models/installation_log.py:14-49 | the modules installed are exactly the existing ones named by to-install lines; done when nothing is to install or some module was found; unchanged when lines are marked but no module exists |
| ProjectNames.Renamed | addons/SYNARA_project_name_customizer/models/sale_order_line.py:9-21 | the loop renames projects only and keeps the set of projects |
| ProjectNames.RenameProjects | addons/SYNARA_project_name_customizer/models/sale_order_line.py:6-23 | the projects after the loop are exactly the renamed projects of the lines, and the id counter is unchanged |
| ProjectNames.LastRenaming | addons/SYNARA_project_name_customizer/models/sale_order_line.py:9-12 | the last line, if any, that has the project and an order with a customer |
| ProjectNames.RenamedByLastLine | addons/SYNARA_project_name_customizer/models/sale_order_line.py:9-21 | a project is named "order - tax id - customer" (with placeholders for empty fields) after the last line that renames it, and keeps its old name when no line does |
| TemplateTasks.FromTemplate | addons/SYNARA_project_template_unlimited/models/project_project.py:24-39 | a new task copies name, description, users, tags, priority, stage, kanban state, deadline and sequence from the template, belongs to the target project, and takes defaults for the rest |
| TemplateTasks.CreateTemplateTasks | addons/SYNARA_project_template_unlimited/models/project_project.py:10-42 | exactly one new task per template task, in template order, with no bound on the count; existing tasks unchanged; nothing created without template tasks |
| Text.Strip | addons/SYNARA_base/wizard/module_installer_wizard.py:62 | `str.strip()`: the result is no longer than the input and neither starts nor ends with whitespace |
| Text.StripKeepsChars | addons/SYNARA_base/wizard/module_installer_wizard.py:62 | every character of the stripped text comes from the original |
| Text.StripCutsSpaceOnly | addons/SYNARA_base/wizard/module_installer_wizard.py:62 | stripping cuts only whitespace: the result is a slice of the input with whitespace alone before and after it |
| Text.StripEmptyIffBlank | addons/SYNARA_base/wizard/module_installer_wizard.py:59 | stripping gives the empty string exactly when the text is all whitespace |
| Text.StripIdempotent | addons/SYNARA_base/wizard/module_installer_wizard.py:62 | stripping twice is stripping once |
| Text.Lower | addons/SYNARA_base/wizard/module_installer_wizard.py:65 | `str.lower()` on ASCII: same length, each upper-case letter mapped to its lower-case form, every other character kept, no upper-case letter left |
| Text.StartsWithLoweredIsLowerPrefix | addons/fotoapp/controllers/photographer_settings.py:195 | the direct prefix test agrees with lower-casing and then testing `startswith` |
| Text.Or | addons/SYNARA_project_name_customizer/models/sale_order_line.py:14-16 | Python's `a or b` on text: `a` when it is not empty, otherwise `b` |
| Text.NatToString | addons/fotoapp/models/tienda_foto_asset.py:185 | `str(n)` of a natural number is a non-empty digit string without a leading zero |
| Text.DigitsOfNat | addons/fotoapp/models/tienda_foto_asset.py:185 | the decimal text of a number reads back as that number |
| Text.ParseInt | addons/fotoapp/controllers/gallery.py:146 | Python's `int(text)`: blank text never parses, and a negative result comes from text whose stripped form starts with `-` |
| Text.ParseIntOfIntToString | addons/fotoapp/controllers/gallery.py:146 | `int(str(i)) == i` for every integer |
| Text.NatToStringInjective | addons/fotoapp/models/tienda_foto_asset.py:185 | distinct numbers have distinct decimal texts |
| Arith.Trunc | addons/fotoapp/models/plan.py:150 | `int(x)` on a float truncates toward zero |
| Dates.AddMonths | addons/fotoapp/models/plan.py:304 | `relativedelta(months=k)` moves the month index by exactly `k` and never increases the day (clamping to the month's length) |
| Dates.AddMonthsIsLater | addons/fotoapp/models/plan.py:304 | adding at least one month gives a strictly later date |
| Dates.AddMonthsMonotone | addons/fotoapp/models/plan.py:304 | adding the same number of months keeps the order of two dates |
| Dates.FirstOfMonth | addons/fotoapp/models/photographer_statement.py:57 | `replace(day=1)` gives day 1 of the same month, not after the date |
| Dates.PrevDay | addons/fotoapp/models/photographer_statement.py:59 | subtracting one day gives a strictly earlier date |
| Dates.NextDay | addons/fotoapp/models/tienda_foto_asset.py:444 | adding one day gives a strictly later date |
| Dates.AddDaysIsLater | addons/fotoapp/models/tienda_foto_asset.py:444 | adding a positive number of days gives a strictly later date |
| Dates.LastDayOfMonth | addons/fotoapp/models/photographer_statement_wizard.py:32 | one month after the first of the month, less one day, is the month's last day |

## Left out
- Image processing is not modelled. This covers watermark rendering, cover-image preparation, SHA-256 checksums and base64 decoding. File sizes and decoded contents are given values, so the watermark regeneration after a profile change is not modelled.
- Raw SQL is not modelled: the legacy subscription migration, the orphan clean-up and the foreign-key rewrites. The `FOR UPDATE` lock is not modelled either. The photo counter is sequential, because the lock matters only under concurrency.
- Network calls are not modelled. This covers the Mercado Pago OAuth exchange, the token refresh and the payment API calls (`_send_api_request`). Tokens and the `_fotoapp_register_gateway_payment` bookkeeping are given values; only the skip rules and the OAuth `state` check are modelled.
- Mail sending is not modelled, including the download e-mail sent by `_set_done`. Only the choice of recipient is modelled.
- The bill importer addon is not modelled: it is a call to an external AI service. The contacts addon is not modelled either: it holds field declarations only.
- Module installation and the server restart are not modelled. `ExecuteInstallation` returns the set of modules it would install.
- Accounting plumbing is not modelled: journal, document-type and pricelist lookups, payment creation, and product and template syncing. The debt product of `_get_debt_product_variant` and the sale product of `ensure_sale_product` are parameters. Invoices are records holding the values the source writes.
- The debt portal's binding of the order to the partner, website and pricelist is not modelled (photographer_debts.py 54-71), nor is its xmlid repair.
- Several crons are not modelled: `fotoapp_cron_generate_subscription_debts`, `fotoapp_cron_handle_overdue_debts` and `cron_subscription_management`. The model covers the per-subscription steps they call.
- The subscription-line helpers `_fotoapp_ensure_subscription_lines` and `fotoapp_should_skip_oca_cron` are not modelled. They depend on the external subscription module.
- XLSX writing is not modelled: statement exports are cell values. Reading the XLSX sheet is not modelled either: the installer's first column is a sequence of cells, and an unreadable file is an `Unreadable` upload.
- ZIP bytes are not modelled: the archive is its list of entry names and contents.
- Rendering is not modelled: page values, redirects, session messages and Ajax payloads are not stated. Also left out:
  - the gallery home and category listing pages;
  - the GET redirect of `/shop/address`;
  - the render flag of `shop_payment`;
  - the duplicate token download route.
- `_fotoapp_is_guest_checkout` is not modelled; whether the checkout is a guest checkout is a parameter.
- Date and datetime text parsing is not modelled (`_parse_datetime`). Neither are the event's descriptive fields: city, country, description and cover.
- Float text parsing in the watermark form is not modelled; the scale arrives parsed. `int()` of form text accepts an optional sign and ASCII digits only.
- Translations of messages are not modelled; messages are error codes.
- SaleOrders.Settled: models the corrected split (`SaleOrders.SplitFirst`), which recomputes the original order's commission after the other photographers' lines move. The code as written keeps the stale commission; `SaleOrders.SplitFirstAsWritten` models it (see "## Findings").
- SaleOrders.SettleOne: settles an order as `SaleOrders.Settled` does, so it uses the corrected split.
- SaleOrders.EnsureSinglePhotographerOrders: settles each order as `SaleOrders.Settled` does, so it uses the corrected split.
- ProfileSettings.PrepareProfileUpdate: models the intended payout fallback (`ProfileSettings.FinalPayout`): an empty field keeps the stored preference. The code as written writes `mercadopago` for an empty field; `ProfileSettings.FinalPayoutAsWritten` models it (see "## Findings").
- ProfileSettings.SubmitProfile: writes the values `ProfileSettings.PrepareProfileUpdate` prepares, so it uses the intended payout fallback.
- Gallery.CartUpdate: models `_cart_update` as finding or adding the photo's line; pricelist prices and quantity merging are not modelled.
- Text.Lower: lower-cases ASCII letters only. A header caption written with an accented capital, such as "MÓDULO", is not recognised.
- Slugs.AsciiOnly: the Unicode NFKD step is not modelled, so an accented letter is dropped instead of being reduced to its base letter: the source turns "Maratón" into "maraton", the model into "maratn".
- SaleOrders.FirstOpen: takes the lowest matching id; the order `search` really uses is the `_order` of `sale.subscription` in `subscription_oca`, which is not part of this model. It matters only when a partner has a draft subscription besides another open one, since the one-active-plan rule allows no two in trial, active or grace.
- EventPortal.ILike: `%` and `_` in the search term are plain characters here; in `ilike` they are wildcards.
- Assets.CronManageLifecycle: the deleted photos stay in the albums' photo sets of the model, because the album model is built on the photo model and not the other way round; in the database the album links go with the photo. `Events.Unlink` and `Albums.Unlink` do remove them (`Albums.WithoutPhotos`).
- CheckoutGuest.SetGuestEmail: models the endpoint as written, where an e-mail passed as keyword argument raises; the intended precedence is `CheckoutGuest.RequestedEmail` (see "## Findings").
- String ordering compares code points, as Python does. Database collation is not modelled.
- Money and percentages are exact reals; binary floating-point rounding is not modelled. The `float_round(..., 'DOWN')` of payment amounts is modelled as truncation to whole units.
- ObjectiveBonus.BonusOf: assumes every task has a `date_last_stage_update`. An unset value would be compared against datetimes in the source.
- Milestones are not modelled against the assertions in SYNARA-project-bonuses/tests/test_milestone_payment.py 77-105, because they contradict the code:
  - the code uses the planned end date for the bonus, not the planned start;
  - no exception is raised for incomplete tasks.
- ProjectNames.RenameProjects: the projects are those the inherited `_timesheet_create_project` created, taken as given. The suffix the source computes from the old name and never uses is not modelled.

## Findings
| source | as written | input that shows it | evidently intended | confidence | as-written member | corrected member |
|---|---|---|---|---|---|---|
| addons/fotoapp/controllers/photographer_settings.py:212-215 | the field loop has already set `payout_preference` to `mercadopago` when the form leaves it empty, so the fallback to the stored preference never applies | an empty payout field for a partner whose stored preference is `bank_transfer` | an empty field keeps the stored preference | not executed | ProfileSettings.FinalPayoutAsWritten, ProfileSettings.StoredPreferenceOverwritten | ProfileSettings.FinalPayout, ProfileSettings.PayoutPreferenceKept |
| addons/fotoapp/models/plan.py:134-141 | the positive-limits constraint checks the deprecated GB limit but not the MB limit used for quotas | a plan with `storage_limit_mb = -1` | a negative MB limit is rejected | not executed | Plans.NegativeMbAccepted, Plans.CheckPositiveLimits | Plans.CheckPositiveLimitsIntended |
| addons/fotoapp/models/sale_order.py:109-118 | the original order's commission is computed while it still holds every photographer's lines, and is not recomputed after the others' lines move | a cart with a 100 photo of one photographer and a 50 photo of another | each order's platform and photographer shares add up to its own total | not executed | SaleOrders.SplitFirstAsWritten, SaleOrders.StaleCommissionAfterSplit | SaleOrders.SplitFirst, SaleOrders.SplitAmountsMatchTotals |
| addons/fotoapp/controllers/checkout_guest.py:249-262 | `payload` is bound only when the `email` keyword argument is empty, and the log call right after reads it, so a request that passes the e-mail as keyword argument raises `UnboundLocalError` before anything is written | a JSON-RPC call whose `params` hold `"email": "guest@example.com"` (Odoo passes them as keyword arguments) | the keyword e-mail is read first and recorded | not executed | CheckoutGuest.GuestEmailAsWritten, CheckoutGuest.KeywordEmailRaises | CheckoutGuest.RequestedEmail |
