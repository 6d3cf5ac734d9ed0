# ISP billing: a verified model of the bookkeeping core

This project models, in Dafny, the bookkeeping at the heart of an ISP billing system: a Django
back end that keeps customers, subscriptions, bills, payments and advance payments, and that
provisions PPPoE users and bandwidth profiles on MikroTik routers. It also models a handful of
small helpers of the React front end. Database tables are sequences or maps held by classes whose
methods update them in place. Each view, job and `save` override is a method, and its new state is
tied to a pure function of the old state. What the system promises is then proved about those
functions as lemmas.

Modules, by the part of the system they follow:

- `Common`, `Text`: options, results, money in integer cents, calendar dates and month arithmetic,
  and the string operations the source relies on (zero-padded numbers, `int()`, `strip()`,
  `replace`, digit filtering).
- `Codes`: the `PREFIX-YEAR[-MM]-NNNN` numbering of bills, payments, invoices, advances, refunds
  and customers.
- `Ledger`: the billing tables (`BillingTables`) and the arithmetic of `Bill.save`,
  `Payment.save`, `AdvancePayment.save` and `Discount.is_valid`.
- `BillingCycle`: monthly bill generation (the admin endpoint, the scheduled job and the cron
  script with its advance draw) and the overdue sweep.
- `BillingViews`: the add-payment endpoint, the `post_save` signal that re-enables a suspended
  subscription, and the refund workflow.
- `SuspensionJobs`: the two variants of the job that suspends subscriptions with unpaid bills.
- `Catalog`, `Customers`, `Subscriptions`, `Records`: packages, customers (numbering, address,
  serializer checks), subscriptions (`save`, `next_billing_date`) and the router-tracking rows.
- `RouterGateway`, `RouterProperties`: the router as an in-memory store of queues, PPP profiles and
  PPPoE secrets behind `MikroTikService`, with every remote call's outcome as a parameter.
- `SubscriptionViews`, `SubscriptionRoot`, `MikrotikViews`: the subscription endpoints of the two
  back-end copies and the router endpoints.
- `ScheduleUi`, `ScheduleConfigs`: schedule configuration, mapping between the UI modes and
  cron/interval triggers, display strings, and the scheduler synchronisation.
- `Dashboard`: the dashboard statistics and the recent-activity feed.
- `Accounts`, `Permissions`: users, roles and the permission classes.
- `BillForm`, `PhoneFormat`, `RelativeTime`, `LoginHistory`, `NavMain`, `UserForm`: front-end
  helpers (the billing-month window and bill submission, phone normalisation and customer payload,
  relative times, user-agent classification, navigation matching, the user form).

Clocks (`today`, `now`), randomness, router replies and exceptions raised by the database are
parameters of the operations that use them.


## Model

| member | source | states |
|---|---|---|
| `Common.DayInMonthOrLast` | isp-billing-backend/subscription/models.py:212-216 | the date is in the given month; it is the requested day when that day exists and the month's last day otherwise |
| `Common.AddDays` | isp-billing-backend/cron/auto_billing.py:71 | `today + timedelta(days=n)` is a valid date, strictly later than `today` when `n > 0` |
| `Codes.Scoped` | billing/models.py:117-119 | a code is kept exactly when it is in the table and starts with the scope prefix |
| `Codes.MaxSuffix` | billing/models.py:121-127 | a non-negative number at least as large as every numeric suffix in the scope |
| `Codes.NextNumber` | billing/models.py:121-127 | at least 1 and larger than every numeric suffix in the scope (numeric order, the corrected rule) |
| `Codes.SuffixOfFormatCode` | billing/models.py:123-128 | a formatted code lies in its scope and its suffix reads back as the number written |
| `Codes.NextCodeIsFresh` | billing/models.py:110-128 | the next code of a scope is never one the table already holds |
| `Codes.LexGreatestAfter9999` | billing/models.py:117-119 | with `…-9999` and `…-10000` in the table, `order_by('-code')` puts `…-9999` first |
| `Codes.AsWrittenRepeatsAfter9999` | billing/models.py:117-128 | as written, with `…-9999` and `…-10000` present the next number is 10000 again, a code already in the table |
| `Codes.AsWrittenAgreesOnSingleCode` | billing/models.py:117-128 | for a single existing code the lexicographic and numeric rules both give its number plus one |
| `Codes.DigitOrder` | billing/models.py:119 | on digit strings of equal length, the string order `order_by` uses is numeric order |
| `Codes.FormatCodeFourDigit` | billing/models.py:128 | a number up to 9999 is written as exactly four digits after the scope |
| `Codes.GreatestCarriesMax` | billing/models.py:117-127 | while every code of the scope has four digits after it, the lexicographically greatest code carries the largest suffix |
| `Codes.AsWrittenAgreesBelow10000` | billing/models.py:117-128 | while every code of the scope has four digits after it, the lexicographic rule gives a number (no `ValueError`) and it is the numeric rule's next number |
| `Ledger.SettleConsistent` | billing/models.py:137-151 | after `save`, total = price + other charges − discount, due = total − paid, paid ≥ total gives `paid` and 0 < paid < total gives `partial` (stated of `Ledger.Settle`) |
| `Ledger.SettleKeepsInputs` | billing/models.py:106-153 | `save` changes no field other than total, due and status (stated of `Ledger.Settle`) |
| `Ledger.SettleKeepsUnpaidStatus` | billing/models.py:147-151 | with nothing paid and something owed, the stored status (pending, overdue, cancelled) is kept |
| `Ledger.SettleRevertsOverdueOfPartial` | billing/models.py:147-151 | a partly paid bill marked overdue is `partial` again after `save` |
| `Ledger.SettleIdempotent` | billing/models.py:137-151 | saving twice is saving once |
| `Ledger.SettleOfConsistent` | billing/models.py:137-151 | a bill already consistent is unchanged by `save` |
| `Ledger.AssignCodeSpec` | billing/models.py:110-128 | with the numeric numbering rule in place of the source's lexicographic one (they agree while the scope's codes have four digits, `Ledger.AssignAgreesBelow10000`): a document keeps a number it has, and a new number is non-empty and held by no other document (stated of `Ledger.AssignCode`) |
| `Ledger.AssignCodeAsWritten` | billing/models.py:110-128 | as written: a number the document has is kept; a new one that the save gives lies in the scope and is held by no other document, because a non-numeric last suffix (`ValueError`) and a code already held (the unique column's `IntegrityError`) fail the save |
| `Ledger.AssignAgreesBelow10000` | billing/models.py:110-128 | while every code of the scope has four digits after it, the save as written succeeds and gives exactly the code of the numeric rule |
| `Ledger.AssignAsWrittenFailsAfter9999` | billing/models.py:117-128 | with `…-9999` and `…-10000` in the table, the next save as written fails on the unique column |
| `Ledger.SavedBillSpec` | billing/models.py:106-153 | with the numeric numbering rule in place of the source's lexicographic one (they agree while the scope's codes have four digits, `Ledger.AssignAgreesBelow10000`): a saved bill is consistent, keeps an existing number, and otherwise gets one no other bill holds |
| `Ledger.SettleAdvanceBalance` | billing/models.py:447-448 | remaining balance = amount − used amount, and those two are unchanged (stated of `Ledger.SettleAdvance`) |
| `Ledger.DrawLowersBalance` | billing/models.py:447-448 | adding `x` to the used amount and saving lowers the balance by exactly `x` |
| `Ledger.DiscountValidity` | billing/models.py:516-533 | inactive, not started, ended, or a non-zero limit reached each make the discount invalid; if none holds it is valid |
| `Ledger.ZeroMaxUsesIsUnlimited` | billing/models.py:530 | a usage limit of 0 behaves as no limit |
| `Ledger.FindBill` | billing/models.py:96 | the position of the bill for (subscription, year, month), and none exactly when no such bill exists |
| `Ledger.FindBillExtends` | billing/models.py:96 | appending rows never loses the bill of a billed period |
| `Ledger.DocumentNumbersFresh` | billing/models.py:315-338 | with the numeric numbering rule in place of the source's lexicographic one (they agree while the scope's codes have four digits, `Ledger.AssignAgreesBelow10000`): invoice, advance and refund numbers are kept once set, and a new one is not already in use (the `AdvancePayment.save` numbering at billing/models.py:433-446 and the `Refund.save` numbering at billing/models.py:642-661 are the same rule) |
| `Ledger.BillingTables.constructor` | billing/models.py:8-96 | the tables start empty and satisfy the table constraints |
| `Ledger.BillingTables.SaveBill` | billing/models.py:106-153 | the stored bill is replaced by its settled form, and the table constraints still hold |
| `Ledger.BillingTables.CreateBill` | billing/models.py:96-153 | a bill for a period already billed is refused and nothing changes; otherwise the bill is appended settled and numbered with the numeric numbering rule in place of the source's lexicographic one (they agree while the scope's codes have four digits, `Ledger.AssignAgreesBelow10000`) |
| `Ledger.AppendSavedBill` | billing/models.py:96-153 | with the numeric numbering rule in place of the source's lexicographic one (they agree while the scope's codes have four digits, `Ledger.AssignAgreesBelow10000`): a new bill in a period not yet billed keeps periods and numbers unique and every number non-empty |
| `Ledger.BillingTables.SaveAdvance` | billing/models.py:428-451 | the advance's balance is recomputed in place |
| `Ledger.BillingTables.DrawAdvance` | isp-billing-backend/cron/auto_billing.py:88-89 | the used amount grows by `x` and the advance is saved; no other advance changes |
| `Ledger.BillingTables.InsertPayment` | billing/models.py:244-262 | the payment is appended with the number it has, or else a `PAY-YYYY-NNNN` number with the numeric numbering rule in place of the source's lexicographic one (they agree while the scope's codes have four digits, `Ledger.AssignAgreesBelow10000`) |
| `Ledger.BillingTables.ApplyPayment` | billing/models.py:264-268 | the bills become those of `ApplyPaymentToBills` and the table constraints still hold |
| `Ledger.ApplyPaymentEffect` | billing/models.py:264-268 | a completed payment raises its bill's paid amount by exactly its amount and leaves the bill consistent; other statuses and other bills are untouched (stated of `Ledger.ApplyPaymentToBills`) |
| `Ledger.PaymentCountedOnEverySave` | billing/models.py:264-268 | saving the same completed payment twice adds its amount twice |
| `Ledger.PayingDueSettlesBill` | billing/models.py:264-268 | paying the whole due amount of a consistent bill makes it `paid` with nothing due |
| `BillingCycle.GenerateTally` | billing/views.py:94-130 | generated + skipped + errors grows by exactly the number of active subscriptions processed |
| `BillingCycle.GenerateStepEffect` | billing/views.py:99-121 | one subscription's step appends at most one bill, a generated one, and bills an active subscription that does not fail |
| `BillingCycle.GenerateCovers` | billing/views.py:94-121 | a run only appends bills, each unpaid and priced at its package for the period, and leaves every active subscription that did not fail billed |
| `BillingCycle.GenerateRerun` | billing/views.py:100-104 | once every active subscription is billed for the period, a run creates nothing |
| `BillingCycle.GenerateIdempotent` | isp-billing-backend/schedule/jobs.py:90-93 | a second run for the same period leaves the bills as the first left them |
| `BillingCycle.GenerateForPeriod` | isp-billing-backend/schedule/jobs.py:84-115 | the bills and the counters are those of the generation run over all subscriptions |
| `BillingCycle.ParsePeriod` | billing/views.py:82-92 | a missing or empty field gives "Year and month are required"; the result is defined exactly when both parse as integers |
| `BillingCycle.GenerateMonthlyBills` | billing/views.py:81-130 | an invalid period changes no bill; otherwise the bills and the reported counts are those of the run for that month, dated today and generated by the user |
| `BillingCycle.GenerateScheduled` | isp-billing-backend/schedule/jobs.py:72-118 | the run for today's month, with no user recorded |
| `BillingCycle.LatestAdvance` | isp-billing-backend/cron/auto_billing.py:77-80 | the first advance of the subscription with a positive balance in the table's order (latest payment date first); none exactly when there is no such advance |
| `BillingCycle.CronTally` | isp-billing-backend/cron/auto_billing.py:52-123 | created + skipped + errors grows by exactly the number of candidates (active, billing day today) |
| `BillingCycle.CronDraw` | isp-billing-backend/cron/auto_billing.py:71-107 | a new bill has no discount or other charges, is dated today and due a week later; when the first usable advance covers the price it is drawn by exactly the price and the bill is paid, otherwise no advance changes and nothing is paid |
| `BillingCycle.CronCovers` | isp-billing-backend/cron/auto_billing.py:56-118 | the cron only appends bills and leaves every candidate that did not fail billed for the month |
| `BillingCycle.CronRerun` | isp-billing-backend/cron/auto_billing.py:58-68 | once every candidate is billed, a run changes no bill and no advance and creates nothing |
| `BillingCycle.CronIdempotent` | isp-billing-backend/cron/auto_billing.py:58-68 | a rerun on the same day after a run without failures changes nothing |
| `BillingCycle.BillCandidate` | isp-billing-backend/cron/auto_billing.py:70-118 | one candidate's draw and insert, with the failure reported exactly when the insert raises |
| `BillingCycle.CronGenerate` | isp-billing-backend/cron/auto_billing.py:22-134 | the bills, advances and counters are those of the cron run over all subscriptions |
| `BillingCycle.Swept` | isp-billing-backend/cron/auto_billing.py:147-162 | every bill is replaced by its swept form, position by position |
| `BillingCycle.SweepEffect` | isp-billing-backend/cron/auto_billing.py:146-164 | a selected unpaid bill becomes overdue, a selected partly paid one is re-derived as partial, an unselected bill is unchanged, and the bill stays consistent (stated of `BillingCycle.SweepBill`) |
| `BillingCycle.SweepIdempotent` | isp-billing-backend/cron/auto_billing.py:146-164 | sweeping twice is sweeping once |
| `BillingCycle.MarkOverdue` | isp-billing-backend/cron/auto_billing.py:137-167 | the bills are swept and the count is the number of selected bills |
| `BillingViews.AutoEnableEffect` | billing/signals.py:14-45 | only the payment's subscription can change, only from suspended to active, exactly when re-enabling is attempted and the router call succeeds (stated of `BillingViews.AutoEnableSpec`) |
| `BillingViews.AutoEnableOnPayment` | billing/signals.py:14-45 | the subscriptions and routers after the signal are those of its specification |
| `BillingViews.CheckPayment` | billing/views.py:473-490 | a payment is accepted exactly when the bill is not paid and 0 < amount ≤ due; a paid bill gives "Bill is already fully paid" |
| `BillingViews.AsWrittenEndpointNeverReenables` | billing/models.py:262-268 | as written, no payment the endpoint accepts changes any subscription or router (stated of `BillingViews.AddPaymentAsWritten`) |
| `BillingViews.PayingInFullReenables` | billing/signals.py:20-42 | with the bill updated before the signal, paying the whole due amount makes the bill paid and the suspended subscription active when the router call succeeds (stated of `BillingViews.AddPayment`) |
| `BillingViews.PartialPaymentReenablesNothing` | billing/signals.py:23-25 | a payment below the due amount leaves the bill unpaid (partial when nothing negative was paid) and changes no subscription or router (stated of `BillingViews.AddPayment`) |
| `BillingViews.BillAddPayment` | billing/views.py:468-514 | a missing bill or a refused payment changes nothing; an accepted one appends a completed payment, runs the signal on that insert against the bill as it was before the payment, and only then adds the payment to its bill: the bills and subscriptions become those of `AddPaymentAsWritten` |
| `BillingViews.RefundStep` | billing/views.py:382-458 | an action is accepted exactly from its source status, sets its target status with the action's fields, and keeps the refund's number, subscription and amount |
| `BillingViews.RefundWorkflow` | billing/views.py:388-448 | an accepted run of actions that takes a pending refund to completed contains an approval |
| `BillingViews.TerminalRun` | billing/views.py:388-448 | a rejected or completed refund refuses every action |
| `BillingViews.RefundAct` | billing/views.py:376-458 | an unknown refund is "Refund not found"; a refused action changes nothing; an accepted one replaces the refund |
| `SuspensionJobs.FindBillSamePeriods` | isp-billing-backend/utils/background_tasks.py:51-55 | the current-bill lookup gives the same answer on two tables whose bills have the same periods |
| `SuspensionJobs.DisableA` | isp-billing-backend/utils/background_tasks.py:84-112 | the table sizes, the counter, the router-assignment invariant, the billing periods and the set of routers are kept |
| `SuspensionJobs.StepA` | isp-billing-backend/utils/background_tasks.py:44-65 | `disabled_count` goes up exactly when the subscription is selected (active with a router, past its billing day, current bill pending, partial or overdue) |
| `SuspensionJobs.RunA` | isp-billing-backend/utils/background_tasks.py:44-76 | the loop keeps the table sizes, every subscription's router known, the billing period of every bill and the set of routers |
| `SuspensionJobs.StepAEffect` | isp-billing-backend/utils/background_tasks.py:44-112 | an unselected subscription changes nothing; a selected one is counted, and either nothing changes (router refused) or it is suspended and its current bill marked overdue and saved, together; no other row moves |
| `SuspensionJobs.StepAOthers` | isp-billing-backend/utils/background_tasks.py:84-112 | an iteration changes no other subscription and no bill of another subscription |
| `SuspensionJobs.CountStep` | isp-billing-backend/utils/background_tasks.py:44-65 | an iteration adds one to `disabled_count` exactly when its subscription was selected at the start of the job |
| `SuspensionJobs.SelectedUntouched` | isp-billing-backend/utils/background_tasks.py:44-58 | a subscription whose own rows are untouched is selected exactly as at the start |
| `SuspensionJobs.RunABeyond` | isp-billing-backend/utils/background_tasks.py:44-76 | the iterations not yet run have touched none of the rows they will handle |
| `SuspensionJobs.RunACount` | isp-billing-backend/utils/background_tasks.py:64-65 | `disabled_count` is the number of selected subscriptions, whether or not the router accepted |
| `SuspensionJobs.RunAEffect` | isp-billing-backend/utils/background_tasks.py:21-112 | every subscription ends untouched, or suspended with its current bill marked overdue, and the latter only when it was selected |
| `SuspensionJobs.RunAKeepsOtherBills` | isp-billing-backend/utils/background_tasks.py:57-67 | a bill of a subscription that was not selected is never changed, so a missing bill is only logged |
| `SuspensionJobs.RunAOwnBills` | isp-billing-backend/utils/background_tasks.py:44-76 | an iteration writes only the bills of the subscription it handles |
| `SuspensionJobs.RefusedIsRetried` | isp-billing-backend/utils/background_tasks.py:93-109 | a selected subscription whose router refused stays active and selected, so the next run retries it |
| `SuspensionJobs.DisableSubscriptionA` | isp-billing-backend/utils/background_tasks.py:84-112 | the tables after the call are those of `DisableA`: suspended and overdue only after the router disabled the secret |
| `SuspensionJobs.HandleA` | isp-billing-backend/utils/background_tasks.py:45-76 | one iteration on the tables matches `StepA`, and reports whether the counter goes up |
| `SuspensionJobs.CheckExpiredA` | isp-billing-backend/utils/background_tasks.py:21-81 | the tables and `disabled_count` after the background job are those of the loop specification |
| `SuspensionJobs.DisableB` | schedule/background_jobs/subscription_jobs.py:80-105 | the table sizes and the counter are kept and no router changes |
| `SuspensionJobs.StepB` | schedule/background_jobs/subscription_jobs.py:40-61 | `disabled_count` goes up exactly when the subscription is selected, and no router changes |
| `SuspensionJobs.RunB` | schedule/background_jobs/subscription_jobs.py:40-72 | the loop keeps the table sizes and the routers |
| `SuspensionJobs.SuspendedAll` | schedule/background_jobs/subscription_jobs.py:85-87 | one subscription per row of the table |
| `SuspensionJobs.OverdueAll` | schedule/background_jobs/subscription_jobs.py:89-92 | one bill per row of the table |
| `SuspensionJobs.OverdueAllPeriods` | schedule/background_jobs/subscription_jobs.py:89-92 | marking bills overdue keeps every bill's period |
| `SuspensionJobs.StepBEffect` | schedule/background_jobs/subscription_jobs.py:40-105 | a selected subscription is suspended whatever the router does, and its current bill becomes overdue only if it was pending; every other row is kept |
| `SuspensionJobs.SelectedBeforeB` | schedule/background_jobs/subscription_jobs.py:40-54 | earlier iterations do not change which bill is current for a later subscription, or whether it is selected |
| `SuspensionJobs.RunBClosed` | schedule/background_jobs/subscription_jobs.py:40-72 | after `n` iterations the first `n` subscriptions and their bills are in their final form and the rest are untouched |
| `SuspensionJobs.RunBCount` | schedule/background_jobs/subscription_jobs.py:60-61 | `disabled_count` counts the selected subscriptions |
| `SuspensionJobs.JobBEffect` | schedule/background_jobs/subscription_jobs.py:10-77 | a missing or disabled configuration changes nothing; otherwise exactly the selected subscriptions are suspended, exactly their pending current bills become overdue, and no router changes (stated of `SuspensionJobs.JobB`) |
| `SuspensionJobs.NothingSelectedAfterB` | schedule/background_jobs/subscription_jobs.py:33-54 | after the job no subscription is selected |
| `SuspensionJobs.JobBIdempotent` | schedule/background_jobs/subscription_jobs.py:10-77 | running the job a second time changes nothing more (stated of `SuspensionJobs.JobB`) |
| `SuspensionJobs.NoneSelectedCount` | schedule/background_jobs/subscription_jobs.py:60-61 | with nothing selected the count is 0 |
| `SuspensionJobs.DisableSubscriptionB` | schedule/background_jobs/subscription_jobs.py:80-105 | the tables after the call are those of `DisableB` |
| `SuspensionJobs.CheckExpiredB` | schedule/background_jobs/subscription_jobs.py:10-77 | the tables and `disabled_count` after the job are those of `JobB` |
| `Customers.CustomerIds` | isp-billing-backend/customers/models.py:182-184 | the customer ids of the table, position by position |
| `Customers.SavedCustomerId` | isp-billing-backend/customers/models.py:172-195 | with the numeric numbering rule in place of the source's lexicographic one (they agree while the scope's codes have four digits, `Ledger.AssignAgreesBelow10000`): an existing id is kept; a new id is in the `ISP-YYYY-` scope and held by no other customer (stated of `Customers.SavedCustomer`) |
| `Customers.FullAddress` | isp-billing-backend/customers/models.py:198-202 | without a zone the bare address; with one, the address, a comma and a space, then the zone's name |
| `Customers.StatusTestsExclusive` | isp-billing-backend/customers/models.py:205-212 | no customer is both active and suspended |
| `Customers.CustomerTable.constructor` | isp-billing-backend/customers/models.py:172-195 | the table starts empty with unique ids |
| `Customers.CustomerTable.Create` | isp-billing-backend/customers/models.py:172-195 | with the numeric numbering rule in place of the source's lexicographic one (they agree while the scope's codes have four digits, `Ledger.AssignAgreesBelow10000`): the saved customer is appended and the ids stay unique |
| `Customers.ValidatePhoneOnCreate` | customers/serializers.py:81-87 | a phone is accepted, unchanged, exactly when no customer uses it |
| `Customers.ValidatePhoneOnUpdate` | customers/serializers.py:130-137 | a phone is accepted, unchanged, exactly when no other customer uses it |
| `Customers.KeepingOwnPhonePasses` | customers/serializers.py:130-137 | a customer keeping its own phone passes the update check but would fail the create check |
| `Customers.ValidateCustomer` | customers/serializers.py:89-105 | refused exactly when the connection type's name contains "static" in any case and no static IP is given; accepted data is returned unchanged |
| `Customers.StaticConnectionNeedsAddress` | customers/serializers.py:93-98 | a "Static IP" connection is refused without an address and accepted with one |
| `Customers.BusinessWithoutEmailAccepted` | customers/serializers.py:100-103 | a business customer without an email is accepted |
| `Customers.WithCreator` | customers/serializers.py:107-115 | the requesting user, when there is one, becomes `created_by`; nothing else changes |
| `Subscriptions.StatusTests` | isp-billing-backend/subscription/models.py:173-181 | `is_active` and `is_suspended` are exactly the status tests, and never both hold |
| `Subscriptions.WithCredentials` | isp-billing-backend/subscription/models.py:157-171 | a given username or password is kept; an empty username becomes the derived one and an empty password the generated token; nothing else changes |
| `Subscriptions.UsernameOfCustomerId` | isp-billing-backend/subscription/models.py:161-164 | for customer id `ISP-<year>-<number>` the username is `user<year><number>` |
| `Subscriptions.StripPrefix` | isp-billing-backend/subscription/models.py:163 | removing `ISP-` from `ISP-<year>-<number>` leaves `<year>-<number>` |
| `Subscriptions.DropDash` | isp-billing-backend/subscription/models.py:163 | removing dashes from `<year>-<number>` leaves `<year><number>` |
| `Subscriptions.StartMonth` | isp-billing-backend/subscription/models.py:191-195 | the start month is a real month (1 to 12) |
| `Subscriptions.NextBillingDate` | isp-billing-backend/subscription/models.py:184-228 | the date is the billing day clamped to its month; it falls in the first of the 24 months from the start that has no bill, or, when all 24 are billed, in the month after today |
| `Records.ReplyId` | isp-billing-backend/mikrotik/views.py:238-239 | an id exactly when the reply is a record with an `id` key, and then that value |
| `Records.SubscriptionTable.constructor` | isp-billing-backend/subscription/models.py:157-171 | the table holds the given subscriptions and no history or fee rows |
| `Records.FindProfile` | isp-billing-backend/mikrotik/models.py:169 | the position of the tracking row for (package, router), and none exactly when there is no such row |
| `Records.SyncRecords.constructor` | isp-billing-backend/mikrotik/models.py:139-169 | no tracking rows and no log rows, with tracking rows unique per (package, router) |
| `SubscriptionViews.ValidateCreate` | isp-billing-backend/subscription/serializers.py:47-77 | accepted exactly when the customer, package and router exist, the billing day is 1 to 31, the customer has no active or suspended subscription, and the stripped username and password are not blank and at most 100 characters, the username no other row's; a day below 1 gives the field's minimum message, an open subscription or a day above 31 the `validate` messages; accepted data comes back with its credentials stripped |
| `SubscriptionViews.UsernameError` | isp-billing-backend/subscription/models.py:81-85 | a username passes exactly when, stripped, it is not blank, no other row has it and it is at most 100 characters |
| `SubscriptionViews.PasswordError` | isp-billing-backend/subscription/models.py:86-89 | a password passes exactly when, stripped, it is not blank and at most 100 characters |
| `SubscriptionViews.FieldError` | isp-billing-backend/subscription/serializers.py:47-53 | the field checks pass exactly when the customer, package and router named exist and, of the fields sent, the billing day is at least 1 (isp-billing-backend/subscription/models.py:33-36) and the credentials pass their checks; with customer and package known, a day below 1 gives the minimum message |
| `SubscriptionViews.AccountOf` | isp-billing-backend/mikrotik/services.py:264-276 | the PPPoE secret sent for a row carries its username and password, its package's queue name as profile, and its customer's id |
| `SubscriptionViews.SaveIdempotent` | isp-billing-backend/subscription/models.py:157-171 | saving changes nothing but empty credentials, and saving twice is saving once |
| `SubscriptionViews.Created` | isp-billing-backend/subscription/serializers.py:79-87 | the created row keeps the requested customer, package, status, billing day, router and start date, is created by the requesting user, starts unsynced with no secret id or error, and has a non-empty username that is the one sent when one was sent |
| `SubscriptionViews.UpsertProfile` | isp-billing-backend/subscription/views.py:131-142 | an existing (package, router) row is replaced, otherwise the row is appended |
| `SubscriptionViews.UpsertProfileSpec` | isp-billing-backend/subscription/views.py:131-142 | the rows stay unique per (package, router) and the lookup then finds the new row |
| `SubscriptionViews.QueueStage` | isp-billing-backend/subscription/views.py:109-147 | the queue step changes no subscription, history or fee row and adds or drops no router |
| `SubscriptionViews.ProfileStage` | isp-billing-backend/subscription/views.py:149-162 | the PPP profile step changes no subscription, history, fee or tracking row, whatever the router answers |
| `SubscriptionViews.Linked` | isp-billing-backend/subscription/views.py:183-189 | the row is marked synced, stamped and cleared of errors, and takes the secret id when the reply has one; nothing else changes |
| `SubscriptionViews.UserStage` | isp-billing-backend/subscription/views.py:166-194 | the secret step changes no history, fee or tracking row, and no subscription before the new one |
| `SubscriptionViews.CreateAtomic` | isp-billing-backend/subscription/views.py:91-147 | a refused or rolled-back creation leaves every table as it was (isp-billing-backend/subscription/views.py:190-194 raise the same way) (stated of `SubscriptionViews.CreateSpec`) |
| `SubscriptionViews.CreateSucceeds` | isp-billing-backend/subscription/views.py:91-208 | a successful creation appends one validated subscription created by the user, with the username and password sent, stripped; it is synced exactly when it has a router, and one `created` history row is written (stated of `SubscriptionViews.CreateSpec`) |
| `SubscriptionViews.InsertSucceeds` | isp-billing-backend/subscription/views.py:98-208 | the writes of a validated creation, when they succeed, append exactly the validated row with its creator, synced exactly when it has a router, and one `created` history row |
| `SubscriptionViews.InsertAtomic` | isp-billing-backend/subscription/views.py:98-147 | the writes of a validated creation that fail leave every table as it was, and add or drop no router |
| `SubscriptionViews.CreateKeepsUsernamesUnique` | isp-billing-backend/subscription/models.py:81-85 | a creation keeps every row's username set and no two rows sharing one |
| `SubscriptionViews.InsertKeepsOneOpen` | isp-billing-backend/subscription/serializers.py:59-68 | the writes for a customer with no open subscription keep at most one open subscription per customer |
| `SubscriptionViews.InsertKeepsProfilesUnique` | isp-billing-backend/mikrotik/models.py:169 | the writes of a validated creation keep the tracking rows unique per (package, router) |
| `SubscriptionViews.InsertLeavesQueue` | isp-billing-backend/subscription/views.py:144-147 | the writes of a validated creation whose queue is made and whose secret then fails leave no row, but the queue stays on the router |
| `SubscriptionViews.CreateKeepsOneOpen` | isp-billing-backend/subscription/serializers.py:59-68 | creation never gives a customer a second active or suspended subscription |
| `SubscriptionViews.CreateKeepsProfilesUnique` | isp-billing-backend/mikrotik/models.py:169 | tracking rows stay unique per (package, router) through a creation |
| `SubscriptionViews.FailedCreateLeavesQueue` | isp-billing-backend/subscription/views.py:144-147 | when the queue is created and the secret then fails, no row is left but the queue stays on the router |
| `SubscriptionViews.ProfileKeepsQueues` | isp-billing-backend/mikrotik/services.py:210-250 | creating a PPP profile leaves the router's queues alone |
| `SubscriptionViews.QueueStep` | isp-billing-backend/subscription/views.py:109-147 | the tables and router after the step are those of `QueueStage`, and the service is disconnected again |
| `SubscriptionViews.ProfileStep` | isp-billing-backend/subscription/views.py:149-162 | the tables and router after the step are those of `ProfileStage` |
| `SubscriptionViews.UserStep` | isp-billing-backend/subscription/views.py:166-194 | the tables and router after the step are those of `UserStage` |
| `SubscriptionViews.CreateSubscription` | isp-billing-backend/subscription/views.py:91-208 | the answer, tables and routers are those of the creation specification |
| `SubscriptionViews.InsertSubscription` | isp-billing-backend/subscription/views.py:98-208 | after validation, the answer, tables and routers are those of the creation's writes (`InsertSpec`) |
| `SubscriptionViews.ApplyUpdate` | isp-billing-backend/subscription/views.py:232-255 | the sync fields, creator and profile name are kept; package and status take the sent values exactly when sent |
| `SubscriptionViews.UpdateSpec` | isp-billing-backend/subscription/views.py:224-255 | an update touches no router, tracking, log or fee row; a refused one (no such row, or a sent field failing the update serializer's checks) changes nothing, and an accepted one keeps the number of rows |
| `SubscriptionViews.UpdateEffect` | isp-billing-backend/subscription/serializers.py:90-100 | accepted exactly when the row exists and the fields sent pass their checks; only the updated row changes, keeping its secret id, sync flag and creator and valid references; a billing day sent is stored and at least 1; credentials sent are stored stripped and not blank, and a username sent is no other row's; one `package_changed` row is written exactly when the package sent differs from the old one (isp-billing-backend/subscription/views.py:232-251) |
| `SubscriptionViews.UpdateKeepsRowsKnown` | isp-billing-backend/subscription/views.py:232-255 | every row's foreign keys stay valid |
| `SubscriptionViews.UpdateKeepsUsernamesUnique` | isp-billing-backend/subscription/models.py:81-85 | an update keeps every row's username set and no two rows sharing one |
| `SubscriptionViews.UpdateSubscription` | isp-billing-backend/subscription/views.py:232-255 | the answer and tables are those of `UpdateSpec` |
| `SubscriptionViews.SyncSpec` | isp-billing-backend/subscription/views.py:277-332 | a sync touches no history, fee or tracking row and answers with the row it synced |
| `SubscriptionViews.SyncRecordsOutcome` | isp-billing-backend/subscription/views.py:283-320 | the row is synced, and free of errors, exactly when the sync succeeded; it never loses a known secret id or its status; one log row records the outcome and other rows are unchanged |
| `SubscriptionViews.SyncLinksCreatedSecret` | isp-billing-backend/subscription/views.py:290-320 | a creation answered with the secret's record links the row to that id |
| `SubscriptionViews.SyncSubscription` | isp-billing-backend/subscription/views.py:277-332 | the answer, tables and routers are those of `SyncSpec` |
| `SubscriptionViews.StatusSpec` | isp-billing-backend/subscription/views.py:342-436 | the endpoints change no fee or tracking row, and a refused request changes nothing |
| `SubscriptionViews.StatusSetRegardless` | isp-billing-backend/subscription/views.py:348-421 | a row not yet in the target state gets it whatever the router answers, with one status-change history row; only a synced row with a router reaches the router |
| `SubscriptionViews.SuspendThenActivate` | isp-billing-backend/subscription/views.py:342-436 | suspending an active row and activating it again gives back the saved row |
| `SubscriptionViews.SetStatus` | isp-billing-backend/subscription/views.py:342-436 | the answer, tables and routers are those of `StatusSpec` |
| `SubscriptionViews.RouterToggle` | isp-billing-backend/subscription/views.py:351-364 | only a synced row with a router reaches its router; any other row leaves the log and the routers as they were, and no router is added or removed |
| `SubscriptionViews.ToggleOnRouter` | isp-billing-backend/subscription/views.py:351-364 | the log and routers after the call are those of `RouterToggle`, and no tracking row changes |
| `SubscriptionRoot.FeeRow` | subscription/views.py:104-112 | an accepted fee entry becomes a row of the new subscription with the amount sent, paid exactly when it was sent as paid, received by the requesting user only when paid |
| `SubscriptionRoot.FeesFrom` | subscription/views.py:100-115 | the fee loop writes at most one row per entry, one for each exactly when every entry is accepted, each for the new subscription with its receiver set only when paid |
| `SubscriptionRoot.CreateFees` | subscription/views.py:100-115 | the fee rows after the loop are the old rows followed by the rows of the accepted entries |
| `SubscriptionRoot.RootCreateFees` | subscription/views.py:91-163 | a failed creation leaves every table, fees included, as it was (the raise at line 147 rolls the fees back); a successful one adds exactly the accepted entries' fee rows for the new subscription (stated of `SubscriptionRoot.RootCreateSpec`) |
| `SubscriptionRoot.InsertFees` | subscription/views.py:98-163 | the writes of a validated creation that fail leave every table, fees included, as it was; successful ones add exactly the accepted entries' fee rows for the new subscription (stated of `SubscriptionRoot.RootInsertSpec`) |
| `SubscriptionRoot.RootSyncGated` | subscription/views.py:117-150 | without a router or a profile name the router is never called and the new row stays unsynced; with both, a successful creation leaves it synced (stated of `SubscriptionRoot.RootCreateSpec`) |
| `SubscriptionRoot.InsertSyncGated` | subscription/views.py:117-150 | the writes of a validated creation call the router only with a router and a profile name, and the new row is synced exactly then (stated of `SubscriptionRoot.RootInsertSpec`) |
| `SubscriptionRoot.RootCreateKeepsUsernamesUnique` | isp-billing-backend/subscription/models.py:81-85 | a creation through the root view keeps every row's username set and no two rows sharing one |
| `SubscriptionRoot.InsertAppendsRow` | subscription/views.py:98-163 | successful writes append exactly one row, with the validated username, after the old rows (stated of `SubscriptionRoot.RootInsertSpec`) |
| `SubscriptionRoot.RootCreateSubscription` | subscription/views.py:91-163 | the answer, tables and router after the creation are those of its specification |
| `SubscriptionRoot.RootInsert` | subscription/views.py:98-163 | after validation, the answer, tables and router are those of `RootInsertSpec` |
| `SubscriptionViews.UserStepOrRollback` | subscription/views.py:118-150 | the router ends as `UserStage` says; the tables are those of the step when the router accepted the secret and the snapshot when it refused |
| `SubscriptionRoot.NewFee` | subscription/views.py:238-240 | an added fee keeps every sent field, and names the requesting user as receiver exactly when it is paid |
| `SubscriptionRoot.UpdatedFee` | subscription/views.py:252-258 | the sent paid flag is written, and the receiver becomes the requesting user only when an unpaid fee is marked paid; otherwise it is kept |
| `SubscriptionRoot.FeeEndpointsKeepReceivers` | subscription/views.py:100-115 | with a signed-in user, adding, updating and creating fees keep every paid fee's receiver recorded (also lines 238-240 and 252-258) |
| `SubscriptionRoot.PaidReceiverStable` | subscription/views.py:252-258 | a fee already paid keeps its receiver through any update |
| `SubscriptionRoot.AddFee` | subscription/views.py:238-240 | the fee table gains exactly the new row, at the end |
| `SubscriptionRoot.UpdateFee` | subscription/views.py:252-258 | an existing fee is replaced by its updated row; an unknown one is refused and nothing changes |
| `MikrotikViews.TestConnectionViewSpec` | isp-billing-backend/mikrotik/views.py:160-181 | an unknown router gives 404 and changes nothing; otherwise the answer is 200 "online" exactly when the test succeeded and 400 "offline" otherwise, and the router row records the test |
| `MikrotikViews.TestAnswerMatchesRow` | isp-billing-backend/mikrotik/views.py:168-181 | an "online" answer means the router row is marked online as of now; a refused API connection answers "offline" and marks it offline; the device is never touched |
| `MikrotikViews.TestConnectionView` | isp-billing-backend/mikrotik/views.py:160-181 | the answer and routers are those of `TestConnectionViewSpec` |
| `MikrotikViews.GetOrCreate` | isp-billing-backend/mikrotik/views.py:205-209 | the tracking row for (package, router) is the existing one when there is one, otherwise a new unsynced row appended at the end |
| `MikrotikViews.Tracked` | isp-billing-backend/mikrotik/views.py:233-244 | the row is synced and free of errors exactly when the call succeeded, stamped on success, and takes the reply's id only on a success that names one |
| `MikrotikViews.SyncPackageSpec` | isp-billing-backend/mikrotik/views.py:193-254 | a sync adds or drops no router, and an unknown package or router changes nothing |
| `MikrotikViews.GetOrCreateUnique` | isp-billing-backend/mikrotik/views.py:205-208 | taking or adding the tracking row of a (package, router) pair keeps one row per pair |
| `MikrotikViews.SyncPackageTracksOnce` | isp-billing-backend/mikrotik/views.py:205-244 | tracking rows stay unique per (package, router); the pair's row is synced and free of errors exactly when the request succeeded; exactly one log row records the attempt and its outcome |
| `MikrotikViews.SyncPackagePath` | isp-billing-backend/mikrotik/views.py:211-219 | the profile is updated exactly when the tracking row already held a router-side id, in which case the router is untouched; a success answered with an id leaves the row holding one |
| `MikrotikViews.SyncPackageToRouter` | isp-billing-backend/mikrotik/views.py:193-254 | the answer, tracking rows, log and routers are those of `SyncPackageSpec` |
| `RouterGateway.QueuePayload` | isp-billing-backend/mikrotik/services.py:78-94 | the queue carries the package's queue name, `max-limit` "down M/up M" and its priority; `burst-limit` and `burst-threshold` are present exactly when both directions are set and `burst-time` exactly when a burst time is set, each in its format; no other key |
| `RouterGateway.ProfilePayload` | isp-billing-backend/mikrotik/services.py:220-225 | the PPP profile has exactly a name, the queue name, and a `rate-limit` "up M/down M" |
| `RouterGateway.SecretPayload` | isp-billing-backend/mikrotik/services.py:264-275 | the secret carries name, password, service "pppoe", the profile and the comment "Customer: " with the customer id; `remote-address` is present exactly when the customer has a static IP; no other key |
| `RouterGateway.SecretUpdate` | isp-billing-backend/mikrotik/services.py:318-328 | an update sends name, password and profile, and `remote-address` exactly when there is a static IP; no other key |
| `RouterGateway.Named` | isp-billing-backend/mikrotik/services.py:354 | a lookup by name returns only entries with that name, and nothing exactly when no entry has it |
| `RouterGateway.Add` | isp-billing-backend/mikrotik/services.py:278 | without a fault, an addition fails exactly when the name is taken, with the router's duplicate-name message; a success appends the new entry under the fresh id |
| `RouterGateway.AfterConnect` | isp-billing-backend/mikrotik/services.py:25-54 | connecting never changes the router's device contents |
| `RouterGateway.MikroTikService.constructor` | isp-billing-backend/mikrotik/services.py:17-23 | a new service is bound to its router and not connected |
| `RouterGateway.MikroTikService.Connect` | isp-billing-backend/mikrotik/services.py:25-54 | the router row records the attempt as `AfterConnect` says; the call succeeds exactly when the API connection is made, and the service is connected exactly then |
| `RouterGateway.MikroTikService.Disconnect` | isp-billing-backend/mikrotik/services.py:56-65 | the service is no longer connected |
| `RouterGateway.MikroTikService.CreateQueueProfile` | isp-billing-backend/mikrotik/services.py:67-118 | the answer and router after the call are those of the queue specification, and the service ends disconnected |
| `RouterGateway.MikroTikService.CreatePppProfile` | isp-billing-backend/mikrotik/services.py:210-249 | the answer and router are those of the PPP profile specification, and the service ends disconnected |
| `RouterGateway.MikroTikService.CreatePppoeUser` | isp-billing-backend/mikrotik/services.py:253-306 | the answer and router are those of the secret specification, and the service ends disconnected |
| `RouterGateway.MikroTikService.UpdatePppoeUser` | isp-billing-backend/mikrotik/services.py:308-341 | the answer and router are those of the secret update specification, and the service ends disconnected |
| `RouterGateway.MikroTikService.SetDisabled` | isp-billing-backend/mikrotik/services.py:343-397 | enabling or disabling a secret gives the answer and router of its specification, and the service ends disconnected |
| `RouterGateway.MikroTikService.DeletePppoeUser` | isp-billing-backend/mikrotik/services.py:399-425 | the answer and router are those of the deletion specification, and the service ends disconnected |
| `RouterGateway.MikroTikService.TestConnection` | isp-billing-backend/mikrotik/services.py:191-208 | the answer and router are those of the test specification, and the service ends disconnected |
| `RouterGateway.MikroTikService.GetActiveConnections` | isp-billing-backend/mikrotik/services.py:429-444 | the sessions are those of the specification, only the connection bookkeeping changes, and the service ends disconnected |
| `RouterProperties.ConnectBookkeeping` | isp-billing-backend/mikrotik/services.py:39-54 | a connection marks the router online and stamps it; an API failure marks it offline and keeps the stamp; any other failure changes nothing; the device is never touched |
| `RouterProperties.NoRemoteChangeWithoutConnection` | isp-billing-backend/mikrotik/services.py:71-72 | without a connection every mutating call fails with "Failed to connect to router" and changes only the connection bookkeeping, and the session list is empty (also lines 214-215, 258-259, 312-313, 347-348, 375-376, 403-404, 433-434) |
| `RouterProperties.FirstNamed` | isp-billing-backend/mikrotik/services.py:354-357 | the first entry with the name, if any, and none exactly when no entry has it |
| `RouterProperties.QueueCreatedWhenNameFree` | isp-billing-backend/mikrotik/services.py:96-100 | with the name free, the queue is appended with its payload and the router's reply is returned (stated of `RouterGateway.CreateQueueSpec`) |
| `RouterProperties.QueueNameTaken` | isp-billing-backend/mikrotik/services.py:101-116 | with the name taken nothing is added; the call succeeds with the existing entry unless the lookup fails, and otherwise fails with the duplicate-name error (stated of `RouterGateway.CreateQueueSpec`) |
| `RouterProperties.ProfileNameTakenSucceeds` | isp-billing-backend/mikrotik/services.py:233-244 | with the name taken the PPP profile call succeeds without change, with the existing entry or, when the lookup fails, "Profile already exists" (stated of `RouterGateway.CreateProfileSpec`) |
| `RouterProperties.ProfileCreatedWhenNameFree` | isp-billing-backend/mikrotik/services.py:227-231 | with the name free, the profile is appended with its payload (stated of `RouterGateway.CreateProfileSpec`) |
| `RouterProperties.SecretCreatedWhenNameFree` | isp-billing-backend/mikrotik/services.py:277-281 | with the name free, the secret is appended with its payload and the reply returned (stated of `RouterGateway.CreateSecretSpec`) |
| `RouterProperties.SecretNameTaken` | isp-billing-backend/mikrotik/services.py:283-300 | with the name taken nothing is added; the call succeeds, with the existing secret, exactly when `force_link` is set and the lookup works, and otherwise fails with the collision message (stated of `RouterGateway.CreateSecretSpec`) |
| `RouterProperties.SetDisabledEffect` | isp-billing-backend/mikrotik/services.py:353-360 | enabling or disabling sets `disabled` on the first secret with the name and changes nothing else (also lines 381-388) (stated of `RouterGateway.SetDisabledSpec`) |
| `RouterProperties.SetDisabledUnknownUser` | isp-billing-backend/mikrotik/services.py:361-362 | an unknown username fails with "User not found" and changes nothing (also lines 389-390) (stated of `RouterGateway.SetDisabledSpec`) |
| `RouterProperties.DeleteEffect` | isp-billing-backend/mikrotik/services.py:409-418 | a deletion succeeds exactly when a secret has the name, and then removes the first such secret and nothing else; otherwise "User not found" and no change (stated of `RouterGateway.DeleteSecretSpec`) |
| `RouterProperties.UpdateSecretEffect` | isp-billing-backend/mikrotik/services.py:308-341 | with the router reachable, an update succeeds exactly when a secret has the stored id, then writes the account's name, password, profile and static address over that secret's and changes nothing else; a failure changes nothing (stated of `RouterGateway.UpdateSecretSpec`) |
| `RouterProperties.TestConnectionEffect` | isp-billing-backend/mikrotik/services.py:191-208 | the test changes no device, succeeds exactly when the router answers, reports "Connection failed" without a connection, and names the router, or "Unknown", on success (stated of `RouterGateway.TestConnectionSpec`) |
| `RouterProperties.ActiveConnectionsEffect` | isp-billing-backend/mikrotik/services.py:429-444 | the live sessions are the router's own when it answers; any failure gives an empty list (stated of `RouterGateway.ActiveConnectionsSpec`) |
| `RouterProperties.FaultChangesNothing` | isp-billing-backend/mikrotik/services.py:112-118 | any other router error fails the call with its message, prefixed as each operation does, and changes only the connection bookkeeping (also lines 246-247, 302-304, 336-339, 364-367, 392-395, 420-423, 440-442) |
| `RouterProperties.RateInjective` | isp-billing-backend/mikrotik/services.py:78 | a rate text determines both of its figures |
| `RouterProperties.ProfileRateIsQueueRateReversed` | isp-billing-backend/mikrotik/services.py:220 | the PPP profile rate is the queue rate with the directions swapped, so the two agree exactly when download equals upload (also line 78) |
| `ScheduleUi.CleanTime` | schedule/serializers.py:41-60 | an empty time string and a missing time both read as no time; a time sent is kept |
| `ScheduleUi.ValidateSent` | schedule/serializers.py:22 | a request is accepted exactly when its day of the month, if sent, is in 1..31, and is then kept as sent |
| `ScheduleUi.Update` | schedule/serializers.py:86-132 | the job key never changes, and the enabled flag takes the value sent exactly when one is sent |
| `ScheduleUi.CronExpression` | schedule/serializers.py:143-146 | there is a cron expression exactly for a cron trigger |
| `ScheduleUi.Represent` | schedule/serializers.py:62-84 | the view carries the cron expression, display text and enabled flag; an interval trigger shows its own interval; a cron trigger shows every 1 month when its day is numeric and every 1 day otherwise (stated of `ScheduleUi.ScheduleDisplay`) |
| `ScheduleUi.ClockOfTime` | schedule/serializers.py:74 | the cron hour and minute written from a time, padded to two digits, read back as that time in `HH:MM` |
| `ScheduleUi.MonthlyRoundTrip` | schedule/serializers.py:98-107 | a monthly update shows again as monthly, on the day sent, at the time sent, with cron expression `minute hour day * *` and the display "Monthly on day d at HH:MM" (also lines 62-75 and 157-161) |
| `ScheduleUi.DailyRoundTrip` | schedule/serializers.py:110-119 | a daily update with a time shows again as every 1 day at the same `HH:MM`, with no day of the month, displayed "Daily at HH:MM" (also lines 76-84 and 163-164) |
| `ScheduleUi.IntervalRoundTrip` | schedule/serializers.py:122-129 | an interval update is shown as that interval with no cron expression, displayed "Every n unit" (also line 166) |
| `ScheduleUi.UnmatchedKeepsTrigger` | schedule/serializers.py:86-132 | a request that matches none of the three forms changes nothing but the enabled flag |
| `ScheduleUi.UpdateIdempotent` | schedule/serializers.py:86-132 | sending the same update twice stores what sending it once did |
| `ScheduleUi.Description` | schedule/serializers.py:134-141 | a job without a fixed description gets "Schedule configuration for" and its key |
| `ScheduleUi.LastStatus` | schedule/serializers.py:172-174 | no status without an execution log; "Success" exactly when the latest execution succeeded; "Failed" otherwise |
| `ScheduleConfigs.ScheduleDisplay` | isp-billing-backend/schedule/models.py:78-87 | a non-empty cron expression is shown as "Cron: " and the expression; without one, anything but every 1 day with a time is shown as "Every n unit" |
| `ScheduleConfigs.TwelveHourEnds` | isp-billing-backend/schedule/models.py:85 | on the 12-hour clock midnight is 12 AM, noon 12 PM and 13 o'clock 01 PM |
| `ScheduleConfigs.FindConfig` | isp-billing-backend/schedule/models.py:91-93 | the row found belongs to the job, and none is found exactly when the job has no row |
| `ScheduleConfigs.GetJobConfig` | isp-billing-backend/schedule/models.py:89-95 | a configuration is returned exactly when the job has an enabled row, and it is that row |
| `ScheduleConfigs.SyncAll` | isp-billing-backend/schedule/models.py:106-125 | the sync keeps every existing row in place, adds at most one row per job, and every added row is enabled, every 1 minute |
| `ScheduleConfigs.SyncAllCovers` | isp-billing-backend/schedule/models.py:114-124 | after the sync every job has a row |
| `ScheduleConfigs.SyncAllNothingMissing` | isp-billing-backend/schedule/models.py:115 | when every job already has a row the sync adds nothing |
| `ScheduleConfigs.SyncAllIdempotent` | isp-billing-backend/schedule/models.py:106-125 | a second sync straight after the first adds nothing |
| `ScheduleConfigs.SyncAllKeepsValid` | isp-billing-backend/schedule/models.py:116-122 | one row per job, an interval of at least 1 and a known unit survive the sync |
| `ScheduleConfigs.InitialConfig` | isp-billing-backend/schedule/background_tasks.py:159-172 | the start-up row of a job is enabled, every 1 unit, with no time; a cron job's row is displayed "Cron: Daily at midnight" and any other "Every 1 minutes" |
| `ScheduleConfigs.InitAll` | isp-billing-backend/schedule/background_tasks.py:154-178 | start-up keeps every existing row in place |
| `ScheduleConfigs.InitAllCovers` | isp-billing-backend/schedule/background_tasks.py:154-178 | after start-up every stored default job has a row, and a table already holding them all is left as it was |
| `ScheduleConfigs.InitAllKeepsValid` | isp-billing-backend/schedule/background_tasks.py:159-174 | start-up keeps a valid table valid |
| `ScheduleConfigs.ConfigTable.constructor` | isp-billing-backend/schedule/models.py:6 | the table holds the given rows |
| `ScheduleConfigs.ConfigTable.SyncFromApscheduler` | isp-billing-backend/schedule/models.py:106-125 | the rows after the sync are those of `SyncAll`, and the count returned is the number of rows it added |
| `ScheduleConfigs.ConfigTable.InitializeDefaults` | isp-billing-backend/schedule/background_tasks.py:154-178 | the rows after start-up are those of `InitAll` over the two default jobs |
| `ScheduleConfigs.SyncTwice` | isp-billing-backend/schedule/models.py:106-125 | of two syncs in a row, the second creates nothing |
| `ScheduleConfigs.Latest` | isp-billing-backend/schedule/serializers.py:46-49 | no run is found exactly when there are none; the run found is one with the latest time |
| `ScheduleConfigs.LastStatus` | isp-billing-backend/schedule/serializers.py:44-60 | nothing without runs; for the latest run "Executed" reads "Success", a recorded exception "Failed", and any other status is passed on |
| `ScheduleConfigs.ReplaceCharSpec` | isp-billing-backend/schedule/serializers.py:65 | replacing one character by another keeps the length and changes exactly the positions holding the first |
| `ScheduleConfigs.JobName` | isp-billing-backend/schedule/serializers.py:62-66 | "Unknown Job" without an id; otherwise a name as long as the id with no underscore left |
| `ScheduleConfigs.JobDescription` | isp-billing-backend/schedule/serializers.py:68-75 | a job without a fixed description gets "Schedule configuration for" and its name |
| `ScheduleConfigs.TargetSeconds` | isp-billing-backend/schedule/background_tasks.py:59-65 | the row's interval in seconds, for exactly the five known units, with each unit's factor |
| `ScheduleConfigs.SyncJobs` | isp-billing-backend/schedule/background_tasks.py:26-84 | the pass keeps the number of jobs |
| `ScheduleConfigs.SyncJobsEffect` | isp-billing-backend/schedule/background_tasks.py:35-84 | the sync job, a job without a row and a job whose calls raise are left alone; any other job runs exactly when its row is enabled, an enabled interval job ends within one second of its row's interval, and an interval changes only when it was more than a second off |
| `ScheduleConfigs.SyncJobsIdempotent` | isp-billing-backend/schedule/background_tasks.py:26-84 | a second pass straight after the first changes nothing |
| `ScheduleConfigs.Scheduler.constructor` | isp-billing-backend/schedule/background_tasks.py:35 | the scheduler holds the given jobs |
| `ScheduleConfigs.Scheduler.SyncSchedulerJobs` | isp-billing-backend/schedule/background_tasks.py:26-84 | the jobs after the pass are those of `SyncJobs` |
| `Dashboard.PreviousMonth` | isp-billing-backend/dashboard/views.py:87-89 | the month before January is December of the year before; otherwise the month before in the same year; both are one month back |
| `Dashboard.RevenueGrowth` | isp-billing-backend/dashboard/views.py:98-101 | growth is 0 when last month's revenue is not positive, and otherwise the exact fraction `(current - last) / last * 100` |
| `Dashboard.GrowthMeaning` | isp-billing-backend/dashboard/views.py:98-99 | with revenue last month, growth is positive exactly when revenue rose, zero exactly when it stayed, and 100 percent exactly when it doubled |
| `Dashboard.OnlineCount` | isp-billing-backend/dashboard/views.py:48 | no more routers are online than there are routers |
| `Dashboard.OnlineOfflinePartition` | isp-billing-backend/dashboard/views.py:47-49 | online and offline routers add up to all routers |
| `Dashboard.CountStatus` | isp-billing-backend/dashboard/views.py:62-64 | no more bills have a status than there are bills |
| `Dashboard.StatusPartition` | isp-billing-backend/dashboard/views.py:62-64 | the five bill statuses partition the bills |
| `Dashboard.Overview` | isp-billing-backend/dashboard/views.py:139-144 | offline routers are those not online and online plus offline is the total; the bill total is pending plus paid plus partial, which leaves overdue and cancelled bills out (also lines 47-49) |
| `Dashboard.TimeAgoCases` | isp-billing-backend/dashboard/views.py:249-263 | a day or more reads in whole days, an hour or more in whole hours, a minute or more in whole minutes, and less than a minute "Just now" (stated of `Dashboard.TimeAgo`) |
| `Dashboard.TimeAgoSingular` | isp-billing-backend/dashboard/views.py:255-261 | one day, hour or minute is written without the plural "s" (stated of `Dashboard.TimeAgo`) |
| `Dashboard.PaymentActivities` | isp-billing-backend/dashboard/views.py:196-211 | one activity per completed payment |
| `Dashboard.CustomerActivities` | isp-billing-backend/dashboard/views.py:214-225 | one activity per new customer |
| `Dashboard.PendingActivities` | isp-billing-backend/dashboard/views.py:228-242 | one activity per pending bill |
| `Dashboard.Merged` | isp-billing-backend/dashboard/views.py:194-242 | the activity list holds one entry per payment, customer and pending bill |
| `Dashboard.Insert` | isp-billing-backend/dashboard/views.py:245 | inserting keeps every activity and adds exactly the new one |
| `Dashboard.InsertNoneNewer` | isp-billing-backend/dashboard/views.py:245 | inserting an activity no newer than a bound keeps every activity within the bound |
| `Dashboard.InsertKeepsOrder` | isp-billing-backend/dashboard/views.py:245 | inserting into a newest-first list keeps it newest first |
| `Dashboard.SortNewestFirst` | isp-billing-backend/dashboard/views.py:245 | the sort is a permutation of the activities |
| `Dashboard.SortIsNewestFirst` | isp-billing-backend/dashboard/views.py:245 | the sorted list is newest first |
| `Dashboard.Take` | isp-billing-backend/dashboard/views.py:247 | a slice `[:n]` holds `n` entries, or all of them when there are fewer |
| `Dashboard.RecentSpec` | isp-billing-backend/dashboard/views.py:192-247 | the request fails exactly when the limit is negative |
| `Dashboard.TakeNewest` | isp-billing-backend/dashboard/views.py:247 | the first `n` entries of a newest-first list are newest first, taken from the list, and no older than any entry left out |
| `Dashboard.RecentIsTopEntries` | isp-billing-backend/dashboard/views.py:192-247 | the answer holds `limit` activities, or all when there are fewer; it is newest first, drawn from the three lists, and no activity left out is newer than one kept |
| `Dashboard.Collect` | isp-billing-backend/dashboard/views.py:194-242 | the loops build exactly the merged activity list |
| `Dashboard.Sort` | isp-billing-backend/dashboard/views.py:245 | the list after sorting is the newest-first sort of the activities |
| `Dashboard.RecentActivity` | isp-billing-backend/dashboard/views.py:186-247 | the answer is that of `RecentSpec` |
| `Accounts.User.constructor` | isp-billing-backend/accounts/models.py:78-85 | a new user holds the given id, username, names, role and superuser flag |
| `Accounts.User.FullName` | isp-billing-backend/accounts/models.py:58-60 | the trimmed "first last" when it is not blank, otherwise the username |
| `Accounts.User.Save` | isp-billing-backend/accounts/models.py:78-85 | a superuser's role becomes admin and any other role is kept; names and the superuser flag are kept; a saved superuser passes the admin test and no other role test |
| `Accounts.FullNameWithoutNames` | isp-billing-backend/accounts/models.py:58-60 | a user without first or last name is shown by username |
| `Accounts.RoleTestsExclusive` | isp-billing-backend/accounts/models.py:62-76 | a user passes one of the four role tests exactly when the role is one of the four roles, and never passes two |
| `Permissions.ClassesMeanRoleSets` | isp-billing-backend/utils/permissions.py:4-64 | a signed-out request passes no role class; each class admits exactly its roles: admin, manager, staff, accountant, admin or manager, those and staff, all four |
| `Permissions.ClassesNested` | isp-billing-backend/utils/permissions.py:36-64 | each combined class is the union of the classes it combines, so each admits everyone the narrower one does |
| `Permissions.OwnerOrAdminMeaning` | isp-billing-backend/utils/permissions.py:71-78 | a signed-out request is refused; an admin passes for every object; anyone else passes exactly for their own user object |
| `Permissions.AccountRolesAgree` | isp-billing-backend/utils/permissions.py:8-33 | the single-role classes agree with the user's own role tests (also isp-billing-backend/accounts/models.py:62-76) |
| `BillForm.OptionAt` | isp-billing-frontend/src/pages/billing/AddBillPage.tsx:56-64 | the entry `k` months from the current one is a valid month exactly `k` months away |
| `BillForm.Window` | isp-billing-frontend/src/pages/billing/AddBillPage.tsx:42-67 | the month picker offers 18 entries |
| `BillForm.WindowEnds` | isp-billing-frontend/src/pages/billing/AddBillPage.tsx:47-53 | the first entry is six months back, wrapping into the year before for January to June, and the seventh entry is the current month |
| `BillForm.WindowSteps` | isp-billing-frontend/src/pages/billing/AddBillPage.tsx:55-64 | every entry is a valid month labelled with its name and year, each is one month after the one before, and no month is offered twice |
| `BillForm.AvailableMonths` | isp-billing-frontend/src/pages/billing/AddBillPage.tsx:42-67 | the loop builds exactly the window |
| `BillForm.Submit` | isp-billing-frontend/src/pages/billing/AddBillPage.tsx:113-158 | the total is price plus other charges minus discount and paid plus due is the total; a paid bill is paid in full, a partial bill is paid the amount entered, any other status goes as pending with nothing paid; a payment of the paid amount is posted exactly for a paid or partial bill with a positive paid amount |
| `PhoneFormat.FormatPhone` | src/pages/AddCustomerPage.tsx:112-120 | an empty number stays empty and only it; a number not starting with "+" comes out as "+880" and digits; one starting with "+" is kept or normalised to that form (also isp-billing-frontend/src/pages/AddCustomerPage.tsx:74-82) |
| `PhoneFormat.NormalIsFixed` | src/pages/AddCustomerPage.tsx:115 | a number already written "+880..." in digits is left as it is |
| `PhoneFormat.FormatPhoneIdempotent` | src/pages/AddCustomerPage.tsx:112-120 | formatting a formatted number changes nothing |
| `PhoneFormat.LocalAndInternationalAgree` | src/pages/AddCustomerPage.tsx:115-116 | "0" and digits, and "+880" and the same digits, format to the same number |
| `PhoneFormat.OrNull` | src/pages/AddCustomerPage.tsx:139-142 | an empty field is sent as null, anything else as it is |
| `PhoneFormat.SelectedId` | src/pages/AddCustomerPage.tsx:137-138 | no selection is sent as null, a numeric selection as its number |
| `PhoneFormat.CustomerPayload` | isp-billing-frontend/src/pages/AddCustomerPage.tsx:93-104 | the phone is formatted; the alternative phone is null exactly when empty and formatted otherwise; email, national id, MAC address and static IP are null exactly when empty; the zone is null when unselected and its number otherwise |
| `PhoneFormat.CustomerPayloadWithType` | src/pages/AddCustomerPage.tsx:131-143 | the root page sends the same payload plus the connection type, null when unselected and its number otherwise |
| `PhoneFormat.PayloadPhonesStable` | src/pages/AddCustomerPage.tsx:131-136 | saving the form again with the numbers it sent sends the same numbers |
| `RelativeTime.Units` | isp-billing-frontend/src/pages/schedule/SchedulePage.tsx:28-30 | whole minutes of the difference, whole hours of those and whole days of those |
| `RelativeTime.TimeUntil` | isp-billing-frontend/src/pages/schedule/SchedulePage.tsx:19-36 | no date reads "Not scheduled" and a date in the past "Overdue" |
| `RelativeTime.TimeSince` | isp-billing-frontend/src/pages/schedule/SchedulePage.tsx:39-55 | no date reads "Never" |
| `RelativeTime.LadderByLength` | isp-billing-frontend/src/pages/schedule/SchedulePage.tsx:28-35 | days show exactly from a day on, hours exactly from an hour up to a day, minutes exactly from a minute up to an hour, and nothing below a minute |
| `RelativeTime.TimeUntilSoon` | isp-billing-frontend/src/pages/schedule/SchedulePage.tsx:20-37 | a next run under a minute ahead reads "in less than a minute" |
| `RelativeTime.TimeUntilDays` | isp-billing-frontend/src/pages/schedule/SchedulePage.tsx:20-37 | a next run a day or more ahead reads "in" and the whole days of the wait |
| `RelativeTime.TimeSinceStrings` | isp-billing-frontend/src/pages/schedule/SchedulePage.tsx:40-55 | a minute to an hour past reads in minutes "ago"; under a minute past, or any future instant, reads "just now" |
| `LoginHistory.BrowserName` | isp-billing-frontend/src/pages/LoginHistoryPage.tsx:71-77 | one of the four browsers or "Unknown"; "Unknown" exactly when the agent names none of them; a browser returned is named in the agent |
| `LoginHistory.OSName` | isp-billing-frontend/src/pages/LoginHistoryPage.tsx:79-86 | one of the five systems or "Unknown"; "macOS" only when the agent says "Mac", any other system only when the agent names it |
| `LoginHistory.FirstMatchWins` | isp-billing-frontend/src/pages/LoginHistoryPage.tsx:71-86 | an agent naming Chrome is Chrome whatever else it names; a Linux agent is never Android and a Mac agent never iOS |
| `LoginHistory.FirstPresent` | isp-billing-frontend/src/pages/LoginHistoryPage.tsx:88-101 | the first non-empty value in order, and "N/A" when there is none |
| `LoginHistory.NameColumns` | isp-billing-frontend/src/pages/LoginHistoryPage.tsx:88-101 | the display name is the user's full name when present and the username column otherwise; the username column prefers the nested username and reads "N/A" when no username is present |
| `LoginHistory.PageCount` | isp-billing-frontend/src/pages/LoginHistoryPage.tsx:62 | the number of pages of ten is the smallest that holds every entry, 0 for none |
| `NavMain.ActiveMeaning` | src/components/layout/nav-main.tsx:39-46 | an entry is active on its own path; any entry but "/" and "/dashboard" is also active on its sub-paths; those two only on their exact path |
| `NavMain.NoSiblingMatch` | src/components/layout/nav-main.tsx:45 | an entry is not active on a path that merely extends its name without a slash |
| `NavMain.QueryEntryExact` | src/components/layout/nav-main.tsx:40-42 | an entry with a query is active exactly when path and query together equal it |
| `NavMain.GroupMeaning` | src/components/layout/nav-main.tsx:55 | a group is highlighted when any child is active, and a group without children never is |
| `UserForm.FormErrorsAt` | isp-billing-frontend/src/pages/AddUserPage.tsx:102-139 | the errors are only for username, email, password and confirmation, each present exactly when its check fails, with that check's message (stated of `UserForm.FormErrors`) |
| `UserForm.UsernameErrorMeaning` | isp-billing-frontend/src/pages/AddUserPage.tsx:105-107 | "Username is required" exactly when the username is blank |
| `UserForm.EmailErrorMeaning` | isp-billing-frontend/src/pages/AddUserPage.tsx:109-113 | an email error exactly when the email is blank or not shaped `local@domain.tld`; "Email is required" when blank and "Invalid email format" otherwise |
| `UserForm.PasswordErrorsMeaning` | isp-billing-frontend/src/pages/AddUserPage.tsx:115-136 | when creating, the password fails exactly when shorter than 8 ("Password is required" when empty) and the confirmation exactly when empty or different; when editing, both are checked only for a non-empty password; every message is non-empty |
| `UserForm.ValidFormGuarantees` | isp-billing-frontend/src/pages/AddUserPage.tsx:102-139 | a form without errors has a username, a well-shaped email, and, when a password is set or required, one of at least 8 characters that matches its confirmation |
| `UserForm.ValidateForm` | isp-billing-frontend/src/pages/AddUserPage.tsx:102-139 | the errors built are exactly the form's errors, and the form is valid exactly when there are none |
| `UserForm.CheckPasswords` | isp-billing-frontend/src/pages/AddUserPage.tsx:115-135 | the password checks add exactly the password and confirmation errors of the form |
| `UserForm.SetField` | isp-billing-frontend/src/pages/AddUserPage.tsx:91 | a change writes the one field named and leaves the passwords alone unless it names one of them |
| `UserForm.HandleChange` | isp-billing-frontend/src/pages/AddUserPage.tsx:90-100 | the field is written; its error is dropped when it has a non-empty one; every other error is kept as it was |
| `UserForm.ChangeClearsOnlyThatField` | isp-billing-frontend/src/pages/AddUserPage.tsx:93-99 | with non-empty messages, a change leaves exactly the other fields' errors |
| `UserForm.SubmitData` | isp-billing-frontend/src/pages/AddUserPage.tsx:153-173 | the password and confirmation are sent exactly when creating or when a new password was typed; an empty phone is sent as null |
| `UserForm.EmailExamples` | isp-billing-frontend/src/pages/AddUserPage.tsx:111 | "a@b.c" has the email shape and "a@bc" does not |

## Left out

- The RouterOS API connection pool and TCP: the router is an in-memory store of queues, PPP profiles and secrets, and whether a connection or a call succeeds, and what it answers, is a parameter.
- `update_queue_profile` and `delete_queue_profile` of `MikroTikService` (isp-billing-backend/mikrotik/services.py:120-189): no modelled endpoint or job calls them.
- `update_ppp_profile` (called at isp-billing-backend/mikrotik/views.py:214) is not defined by the service shown; its outcome is a parameter and the router is taken to be left as it was.
- `SuspensionJobs.DisableB`: `disable_customer` (called at schedule/background_jobs/subscription_jobs.py:97) is not a method of the service shown, so the call raises `AttributeError`, which the job's `except` logs after the subscription and bill are already saved; the model therefore takes no router outcome for it and leaves every router as it was.
- The Django ORM, Django REST framework serializers and `transaction.atomic`: a transaction is a snapshot of the tables that a failed request restores, including the sync-log rows written inside it.
- Concurrency: two requests numbering codes at once are not modelled; numbering is sequential.
- `secrets.token_urlsafe` is a `generated` parameter; `time.sleep` has no counterpart.
- The cron script passes `due_date` to `Bill.objects.create`, but the bill model has no such field; the model keeps it as an optional field of the bill that only that script sets.
- The update, sync, suspend and activate views of the root copy of subscription/views.py are the same as in the back-end copy and are modelled once, in `SubscriptionViews`; only the root copy's fee handling has its own module.
- `check_and_disable_expired_subscriptions` (isp-billing-backend/schedule/jobs.py:11-61): it reads fields the subscription model does not have.
- Analytics views, authentication and tokens, and the React rendering of every page: only the computations of the pages named in the module list are modelled.
- Floating point: amounts are integer cents, so `parseFloat` and `NaN` have no counterpart; the dashboard's growth percentage is an exact fraction with no rounding; `total_seconds()` is whole seconds.
- `parseInt` of a string with trailing non-digits is not modelled; numbers are read only from all-digit strings.
- `SubscriptionViews.FieldError`: the first failing check, in field order, is the one reported; Django REST framework collects the errors of every field into one response, and the model keeps only the first message.
- `SubscriptionViews.ValidateCreate`: a create request carries every serializer field; a required field missing from the request, which the serializer reports as required, is not modelled.
- `SubscriptionViews.UpdateSpec`: every update is treated as a partial one (PATCH), checking only the fields sent; a PUT that leaves out a required field, which the serializer refuses, is not modelled.
- `Text.Trim`, `Text.Lower`, `Text.Capitalize`: whitespace is ASCII whitespace and case mapping is ASCII only; Python's and JavaScript's Unicode whitespace, case mapping and the title-casing of non-Latin letters are not modelled.
- `BillingViews.CheckPayment`: the over-amount message is fixed text; the source formats the amount sent and the due amount into it (billing/views.py:495-498), which money in integer cents does not reproduce.
- `Ledger.AssignCode`: numbers a new document by the numeric rule (one more than the largest numeric suffix in the scope) instead of the lexicographic rule of billing/models.py:117-128 (likewise lines 250-261, 325-336, 436-446, 650-660 and isp-billing-backend/customers/models.py:176-192); the two agree while every code of the scope has four digits after it (`Ledger.AssignAgreesBelow10000`), and the source's `IntegrityError` on a repeated code past 9999 and `ValueError` on a non-numeric suffix are modelled by `Ledger.AssignCodeAsWritten` only, not on the tables, so that the table invariants hold on every input.
- `Ledger.AssignCodeSpec`: numbers a new document by the numeric rule (one more than the largest numeric suffix in the scope) instead of the lexicographic rule of billing/models.py:117-128 (likewise lines 250-261, 325-336, 436-446, 650-660 and isp-billing-backend/customers/models.py:176-192); the two agree while every code of the scope has four digits after it (`Ledger.AssignAgreesBelow10000`), and the source's `IntegrityError` on a repeated code past 9999 and `ValueError` on a non-numeric suffix are modelled by `Ledger.AssignCodeAsWritten` only, not on the tables, so that the table invariants hold on every input.
- `Ledger.SavedBillSpec`: numbers a new document by the numeric rule (one more than the largest numeric suffix in the scope) instead of the lexicographic rule of billing/models.py:117-128 (likewise lines 250-261, 325-336, 436-446, 650-660 and isp-billing-backend/customers/models.py:176-192); the two agree while every code of the scope has four digits after it (`Ledger.AssignAgreesBelow10000`), and the source's `IntegrityError` on a repeated code past 9999 and `ValueError` on a non-numeric suffix are modelled by `Ledger.AssignCodeAsWritten` only, not on the tables, so that the table invariants hold on every input.
- `Ledger.DocumentNumbersFresh`: numbers a new document by the numeric rule (one more than the largest numeric suffix in the scope) instead of the lexicographic rule of billing/models.py:117-128 (likewise lines 250-261, 325-336, 436-446, 650-660 and isp-billing-backend/customers/models.py:176-192); the two agree while every code of the scope has four digits after it (`Ledger.AssignAgreesBelow10000`), and the source's `IntegrityError` on a repeated code past 9999 and `ValueError` on a non-numeric suffix are modelled by `Ledger.AssignCodeAsWritten` only, not on the tables, so that the table invariants hold on every input.
- `Ledger.BillingTables.CreateBill`: numbers a new document by the numeric rule (one more than the largest numeric suffix in the scope) instead of the lexicographic rule of billing/models.py:117-128 (likewise lines 250-261, 325-336, 436-446, 650-660 and isp-billing-backend/customers/models.py:176-192); the two agree while every code of the scope has four digits after it (`Ledger.AssignAgreesBelow10000`), and the source's `IntegrityError` on a repeated code past 9999 and `ValueError` on a non-numeric suffix are modelled by `Ledger.AssignCodeAsWritten` only, not on the tables, so that the table invariants hold on every input.
- `Ledger.AppendSavedBill`: numbers a new document by the numeric rule (one more than the largest numeric suffix in the scope) instead of the lexicographic rule of billing/models.py:117-128 (likewise lines 250-261, 325-336, 436-446, 650-660 and isp-billing-backend/customers/models.py:176-192); the two agree while every code of the scope has four digits after it (`Ledger.AssignAgreesBelow10000`), and the source's `IntegrityError` on a repeated code past 9999 and `ValueError` on a non-numeric suffix are modelled by `Ledger.AssignCodeAsWritten` only, not on the tables, so that the table invariants hold on every input.
- `Ledger.BillingTables.InsertPayment`: numbers a new document by the numeric rule (one more than the largest numeric suffix in the scope) instead of the lexicographic rule of billing/models.py:117-128 (likewise lines 250-261, 325-336, 436-446, 650-660 and isp-billing-backend/customers/models.py:176-192); the two agree while every code of the scope has four digits after it (`Ledger.AssignAgreesBelow10000`), and the source's `IntegrityError` on a repeated code past 9999 and `ValueError` on a non-numeric suffix are modelled by `Ledger.AssignCodeAsWritten` only, not on the tables, so that the table invariants hold on every input.
- `Customers.SavedCustomer`: numbers a new document by the numeric rule (one more than the largest numeric suffix in the scope) instead of the lexicographic rule of billing/models.py:117-128 (likewise lines 250-261, 325-336, 436-446, 650-660 and isp-billing-backend/customers/models.py:176-192); the two agree while every code of the scope has four digits after it (`Ledger.AssignAgreesBelow10000`), and the source's `IntegrityError` on a repeated code past 9999 and `ValueError` on a non-numeric suffix are modelled by `Ledger.AssignCodeAsWritten` only, not on the tables, so that the table invariants hold on every input.
- `Customers.SavedCustomerId`: numbers a new document by the numeric rule (one more than the largest numeric suffix in the scope) instead of the lexicographic rule of billing/models.py:117-128 (likewise lines 250-261, 325-336, 436-446, 650-660 and isp-billing-backend/customers/models.py:176-192); the two agree while every code of the scope has four digits after it (`Ledger.AssignAgreesBelow10000`), and the source's `IntegrityError` on a repeated code past 9999 and `ValueError` on a non-numeric suffix are modelled by `Ledger.AssignCodeAsWritten` only, not on the tables, so that the table invariants hold on every input.
- `Customers.CustomerTable.Create`: numbers a new document by the numeric rule (one more than the largest numeric suffix in the scope) instead of the lexicographic rule of billing/models.py:117-128 (likewise lines 250-261, 325-336, 436-446, 650-660 and isp-billing-backend/customers/models.py:176-192); the two agree while every code of the scope has four digits after it (`Ledger.AssignAgreesBelow10000`), and the source's `IntegrityError` on a repeated code past 9999 and `ValueError` on a non-numeric suffix are modelled by `Ledger.AssignCodeAsWritten` only, not on the tables, so that the table invariants hold on every input.
- APScheduler itself: the trigger it builds for an interval of zero or less is not modelled, and a job that raises is modelled by the `faulty` set of job ids.
- The cron text of `delete_old_job_executions` reads "Daily at midnight" although the job is registered weekly; the model keeps both values as the source states them.
- An unknown interval unit gives no description, as the source does once its `UnboundLocalError` is caught.
- Dashboard timestamps are integers compared directly instead of ISO-format strings.
- `Dashboard.SortNewestFirst`: the recent-activity sort is an insertion sort on the timestamp; it is proved newest first and a permutation of its input, but not that entries with equal timestamps keep the order Python's stable `sort` gives them.
- The recent-activity entries carry only the fields the ordering and text need; amount, customer id, bill number, icon and colour are left out.
- A negative `limit` for the recent-activity feed is an error in the model; Python would slice from the end.
- `LoginHistory.FirstPresent`: "N/A" is stated for the case where no value is present, not the converse, because a present value may itself be the text "N/A".
- `Bill.save` derives the status from the paid and due amounts on every save, so a `partial` bill marked `overdue` and saved is `partial` again; the model keeps this behaviour.
- A bill generated for a package whose price is zero is saved as `paid`, since zero paid covers zero due; the model keeps this behaviour.

## Findings

| source | as written | input that shows it | evidently intended | confidence | as-written member | corrected member |
|---|---|---|---|---|---|---|
| billing/models.py:117-128 | the last code of a scope is found by ordering the codes as strings (`order_by('-bill_number')`), and its suffix plus one is the next number; the same pattern numbers payments, invoices, advances, refunds and customers | a scope holding `…-9999` and `…-10000`: the string maximum is `…-9999`, so the next code is `…-10000` again, which the unique column already holds | the next number is one more than the numerically largest suffix, so a new code is never one already issued | not executed | `Ledger.AssignAsWrittenFailsAfter9999` | `Codes.NextCodeIsFresh` |
| billing/models.py:262-268 | `Payment.save` calls `super().save()`, which sends `post_save`, before it adds the amount to the bill; the signal (billing/signals.py:20-25) therefore sees the bill's status from before the payment | a suspended subscription whose bill is `pending` with due amount D, paid D through the add-payment endpoint (billing/views.py:475-476 refuses bills that are already `paid`): the bill becomes `paid` but the subscription stays suspended and the router is not called | a payment that settles the bill re-enables the suspended subscription on the router, as the signal's docstring says | not executed | `BillingViews.AsWrittenEndpointNeverReenables` | `BillingViews.PayingInFullReenables` |
