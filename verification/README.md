# Subscription records and their request handlers, in Dafny

This project models the server side of a small subscription-billing web
application. Each user, identified by the authentication provider's
`clerkId`, has one record: a snapshot of the current plan (id, name,
price, start and end of the cycle, status `active`/`cancelled`/`expired`),
an append-only payment history and a credit balance. Six request handlers
change or read these records. Each reads at most one record and writes at
most once, so each is modelled as a pure function from (store, request,
clock) to (reply or error, new store). The store is a `map<string, User>`
keyed by `clerkId`.

Modules, one per source file:

- `Wrappers` (`wrappers.dfy`): `Option` and `Result`.
- `UserModel` (`user.dfy`): the record schema, the store, the plan
  catalog and its lookup, saving (which stamps `updatedAt`), saving with
  the schema's required-field check, insertion
  under the unique `clerkId` index, and the store invariant `ValidStore`.
- `Api` (`api.dfy`): error replies with their HTTP status, the
  reply-plus-store `Outcome`, and JavaScript truthiness of request fields
  (a string is truthy when present and non-empty, a number when present
  and non-zero).
- `Proration` (`proration.dfy`): the proration arithmetic of a plan
  upgrade. Money is exact `real`; timestamps are `int` milliseconds.
- `UpgradeRoute`, `PaymentSuccessRoute`, `CancelRoute`, `SyncRoute` and
  `UsersRoute`: the handlers for `/api/users/upgrade`,
  `/api/payment-success`, `/api/users/cancel`, `/api/users/sync` and
  `/api/users` (GET and POST).
- `CheckoutRoute` (`checkout.dfy`): how `/api/create-checkout-session`
  picks the payment-intent amount and builds the intent's parameters.
- `PlanUpgradeView` (`plan_upgrade.dfy`): which catalog plans the upgrade
  panel offers.
- `Lifecycle` (`lifecycle.dfy`): request sequences against one record, and
  worked upgrade scenarios.

The clock is a parameter. `Clock.now` is the current time.
`Clock.oneMonthLater` is what adding one calendar month to it yields; the
environment supplies it.

The upgrade arithmetic reproduces the code's quirks on purpose:

- The charge spends only the old balance, but the new balance also takes
  in the old plan's remaining value.
- The remaining days are not clamped at zero.
- The reply's `creditsApplied` is taken against the new balance. The
  history entry's `creditApplied` uses the old one.

Behaviour of the code worth knowing, each stated by a lemma:

- A cycle that ended a day ago gives -1 remaining days, not 0
  (`Lifecycle.ScenarioExpired`). From one full day after the cycle end, when
  the current price is positive, an upgrade to a plan that is not cheaper
  is free and a positive balance shrinks (`Proration.ExpiredCycle`).
- A second payment for the stored plan does not start a new cycle. The
  snapshot is reset only on the first payment or on a plan change
  (`PaymentSuccessRoute.PlanResetIff`).
- An upgrade keeps the cycle end, except that a record with no end date
  gets `now` as its new end date (`UpgradeRoute.UpgradeEffect`).
- A payment by a payer with no stored record fails with 500 (see
  Findings).

## Model

| member | source | states |
|---|---|---|
| `UserModel.NewUser` | src/models/User.ts:60-62 | a new record starts with no credits, an empty history, and creation and update times equal to the construction time |
| `UserModel.Save` | src/models/User.ts:65-68 | saving stamps `updatedAt` with the save time, writes only the saved key, and keeps the store invariant |
| `UserModel.SaveValidated` | src/models/User.ts:29-59 | a save is refused, writing nothing, exactly when a required string field (`clerkId`, `email`, or an entry's `paymentIntentId`, `planId`, `planName`) is empty; otherwise it stamps the save time and keeps the other records |
| `UserModel.Insert` | src/models/User.ts:30 | inserting is refused exactly when the `clerkId` is already stored; otherwise the record is added and the other records are kept |
| `UserModel.IndexOfPlan` | src/app/api/users/upgrade/route.ts:25 | the index found is that of the first catalog entry with the id, or the catalog length when no entry has it |
| `UserModel.FindPlan` | src/app/api/users/upgrade/route.ts:25-28 | the lookup fails exactly when no catalog entry has the id; otherwise it returns the first catalog entry with that id |
| `Proration.DaysRemaining` | src/app/api/users/upgrade/route.ts:32-35 | the result is the ceiling of the time to the cycle end in days: `(d-1)·day < end-now <= d·day`, zero during the first day after the end and negative exactly from one full day after it |
| `Proration.Prorate` | src/app/api/users/upgrade/route.ts:38-53 | upgrade amount, charge and new balance are never negative; with a non-negative balance, charge plus applied credit equals the upgrade amount; a balance covering the upgrade makes the charge 0 and applies the whole upgrade amount |
| `Proration.UpgradeAmountIsPriceDifference` | src/app/api/users/upgrade/route.ts:46-49 | the upgrade amount is the price difference prorated over the remaining days, clamped at zero |
| `Proration.NoChargeWithoutPriceIncrease` | src/app/api/users/upgrade/route.ts:38-53 | with days remaining and a non-negative balance, a plan that is not more expensive costs 0 to upgrade and 0 to pay |
| `Proration.NewBalance` | src/app/api/users/upgrade/route.ts:52-53 | with a non-negative old balance, the new balance is the old plan's remaining value plus the unapplied old balance minus the charge, so the charge is both paid and taken from the balance; when the old balance falls short of the upgrade amount, the charge is the shortfall and the new balance is the old plan's remaining value minus that charge, clamped at zero |
| `Proration.ExpiredCycle` | src/app/api/users/upgrade/route.ts:32-53 | from one full day after the cycle end and when the current price is positive, a plan that is not cheaper is free to move to, yet a positive balance strictly shrinks |
| `Proration.MoreCreditsChargeLess` | src/app/api/users/upgrade/route.ts:53 | a larger balance never makes the charge larger |
| `UpgradeRoute.HandleUpgrade` | src/app/api/users/upgrade/route.ts:13-28 | a missing field gives 400; an unknown user gives 404, and so does an unknown plan; the store is unchanged in each case; success occurs exactly otherwise and rewrites only the requester's record |
| `UpgradeRoute.UpgradeErrorStatus` | src/app/api/users/upgrade/route.ts:13-28 | a failed upgrade has status 400 when a field is missing and 404 otherwise |
| `UpgradeRoute.UpgradeEffect` | src/app/api/users/upgrade/route.ts:56-75 | the new snapshot is an active copy of the catalog plan from now with the old cycle end kept; history grows by exactly one `upgrade` entry carrying the charge, the prorated amount and the credit taken from the old balance |
| `UpgradeRoute.ReplyAgreesWithRecord` | src/app/api/users/upgrade/route.ts:66-93 | the reply's charge and upgrade amount are the appended `upgrade` entry's amount and prorated amount, its remaining credits are the stored balance, and the returned user is the stored record |
| `UpgradeRoute.ReportedCreditsUseNewBalance` | src/app/api/users/upgrade/route.ts:78-89 | the reported `creditsApplied` is taken against the balance after the upgrade |
| `UpgradeRoute.ChargePlusCreditIsUpgradeAmount` | src/app/api/users/upgrade/route.ts:66-78 | with a non-negative old balance, the recorded charge plus recorded credit equals the recorded prorated amount, and the new balance is non-negative |
| `UpgradeRoute.UpgradePreservesInvariant` | src/app/api/users/upgrade/route.ts:56-80 | the handler keeps the store invariant |
| `PaymentSuccessRoute.RecordPayment` | src/app/api/payment-success/route.ts:13-23 | any falsy field (an amount of 0 included) gives 400; an unknown plan gives 404; nothing is saved in either case; success occurs exactly otherwise and writes only the payer's record |
| `PaymentSuccessRoute.RecordPaymentAsWritten` | src/app/api/payment-success/route.ts:13-91 | with the schema check on save, a failure leaves the store unchanged and a success is exactly the intended handler's success; where the intended handler fails, so does this one with the same answer |
| `PaymentSuccessRoute.UnstoredPayerPaymentFails` | src/app/api/payment-success/route.ts:28-48 | as written, a valid payment for a plan in the catalog by a user with no stored record answers 500 and saves nothing, while the intended handler succeeds |
| `PaymentSuccessRoute.AsWrittenAgreesForStoredPayer` | src/app/api/payment-success/route.ts:50-79 | for a stored payer with an email, the handler as written and the intended one give the same answer and store |
| `PaymentSuccessRoute.AppendsOneEntry` | src/app/api/payment-success/route.ts:51-58 | exactly one entry is appended and earlier entries are kept; it is `initial` iff the history was empty, otherwise `renewal` |
| `PaymentSuccessRoute.PlanResetIff` | src/app/api/payment-success/route.ts:61-77 | the snapshot becomes an active one-month copy of the paid plan iff the history was empty or the stored plan id differs; otherwise it is unchanged |
| `PaymentSuccessRoute.SamePlanKeepsSnapshot` | src/app/api/payment-success/route.ts:61-77 | paying again for the stored plan with a non-empty history leaves the snapshot as it was, cancelled status and old end date included |
| `PaymentSuccessRoute.ExistingUserKeepsCredits` | src/app/api/payment-success/route.ts:50-79 | a stored user's credits, email and creation time are not modified |
| `PaymentSuccessRoute.CreatesUnknownUser` | src/app/api/payment-success/route.ts:28-48 | an unknown user is created with an empty email, no credits, one `initial` entry and an active snapshot of the plan |
| `PaymentSuccessRoute.RecordPaymentPreservesInvariant` | src/app/api/payment-success/route.ts:26-79 | the handler keeps the store invariant |
| `CancelRoute.Cancel` | src/app/api/users/cancel/route.ts:12-38 | a missing id gives 400 and an unknown user 404, with the store unchanged; otherwise the status becomes `cancelled` whatever it was, and plan fields, credits, history and email are kept |
| `CancelRoute.CancelIdempotent` | src/app/api/users/cancel/route.ts:26-29 | cancelling twice leaves the same store as cancelling once at the later time |
| `CancelRoute.CancelPreservesInvariant` | src/app/api/users/cancel/route.ts:26-29 | the handler keeps the store invariant |
| `SyncRoute.Sync` | src/app/api/users/sync/route.ts:14-50 | a missing id or email gives 400; a new user gets status `expired`, no plan fields, no credits and no history; for a stored user only the email (and save time) changes |
| `SyncRoute.SyncIdempotent` | src/app/api/users/sync/route.ts:28-50 | repeating the same sync changes nothing but the save time |
| `SyncRoute.SyncPreservesInvariant` | src/app/api/users/sync/route.ts:28-50 | the handler keeps the store invariant |
| `UsersRoute.GetUser` | src/app/api/users/route.ts:12-25 | a missing id gives 400, an unknown one 404, and a known one the stored record unchanged |
| `UsersRoute.CreateUser` | src/app/api/users/route.ts:42-68 | any falsy field (a price of 0 included) gives 400; a stored id is refused with 500 by the unique index and the store is unchanged; otherwise an active one-month plan with no credits and no history is added |
| `UsersRoute.CreateThenGet` | src/app/api/users/route.ts:19-68 | looking up a just-created id returns the created record |
| `UsersRoute.CreateUserPreservesInvariant` | src/app/api/users/route.ts:49-68 | the create handler keeps the store invariant |
| `CheckoutRoute.ResolveAmount` | src/app/api/create-checkout-session/route.ts:17-23 | a truthy explicit amount takes precedence; the looked-up price (null reading as 0) is used only when a price id is given and the amount is falsy |
| `CheckoutRoute.Currency` | src/app/api/create-checkout-session/route.ts:13-35 | the currency defaults to "usd" and is sent without upper-case letters |
| `CheckoutRoute.IntentMetadata` | src/app/api/create-checkout-session/route.ts:39-44 | the caller's metadata is kept except that price id (or ""), quantity as a decimal string, and customer email (or "") override it |
| `CheckoutRoute.CreatePaymentIntent` | src/app/api/create-checkout-session/route.ts:25-45 | an intent is created iff the resolved amount is present and positive, else 400; its amount is resolved amount times quantity, quantity unvalidated and defaulting to 1 |
| `CheckoutRoute.ExplicitAmountWins` | src/app/api/create-checkout-session/route.ts:17-23 | with a truthy explicit amount the price lookup cannot change the outcome |
| `CheckoutRoute.NoPriceIdNoLookup` | src/app/api/create-checkout-session/route.ts:17-30 | without a price id the lookup is irrelevant and success means the explicit amount is positive |
| `CheckoutRoute.ToLowerAscii` | src/app/api/create-checkout-session/route.ts:35 | lower-casing keeps the length, leaves no upper-case letter, and changes only upper-case letters, each to its lower-case form |
| `CheckoutRoute.ToLowerIdempotent` | src/app/api/create-checkout-session/route.ts:35 | lower-casing twice is lower-casing once |
| `CheckoutRoute.NatToDecimal` | src/app/api/create-checkout-session/route.ts:42 | a natural number renders as a non-empty string of digits without a leading zero |
| `CheckoutRoute.DecimalRoundTrip` | src/app/api/create-checkout-session/route.ts:42 | reading back the rendered digits gives the number |
| `CheckoutRoute.IntToDecimal` | src/app/api/create-checkout-session/route.ts:42 | an integer renders with a leading minus exactly when negative, followed by digits whose value is its magnitude |
| `PlanUpgradeView.AvailableUpgrades` | src/components/PlanUpgrade.tsx:129-131 | every offered plan is a catalog plan priced strictly above the current price, and every such catalog plan is offered |
| `PlanUpgradeView.UpgradesKeepOrder` | src/components/PlanUpgrade.tsx:129-131 | offers from an earlier part of the catalog precede offers from a later part |
| `PlanUpgradeView.NeverOffersCheaperOrEqual` | src/components/PlanUpgrade.tsx:129-131 | a plan priced at or below the current price is never offered, and nothing is offered without a current price |
| `Lifecycle.FirstPaymentThenRenewal` | src/app/api/payment-success/route.ts:28-77 | two payments for one plan by a new user give an `initial` and then a `renewal` entry, and the second keeps the first's cycle |
| `Lifecycle.SyncThenFirstPayment` | src/app/api/users/sync/route.ts:30-43 | a user created by sync becomes active on the first payment, which is `initial`, and keeps the synced email |
| `Lifecycle.CancelThenRenewStaysCancelled` | src/app/api/payment-success/route.ts:61-77 | after a cancellation, paying for the same plan appends a `renewal` and leaves the status `cancelled` |
| `Lifecycle.CancelThenUpgradeReactivates` | src/app/api/users/upgrade/route.ts:25-63 | after a cancellation, an upgrade to any catalog plan, the one already held included, succeeds and makes the status `active` again |
| `Lifecycle.ScenarioNoCredits` | src/app/api/users/upgrade/route.ts:30-93 | 15 days before the end of a 2999 plan, with no credits, moving to a 9999 plan gives values 1499.5 and 4999.5 and charges 3500 |
| `Lifecycle.ScenarioWithCredits` | src/app/api/users/upgrade/route.ts:53-89 | the same with 2000 credits charges 1500 and records 2000 credits applied, while the reply reports 0 and the balance becomes 0 |
| `Lifecycle.ScenarioExpired` | src/app/api/users/upgrade/route.ts:32-53 | one day past the cycle end the remaining days are -1: the move is free and a balance of 100 drops to 66.7 |

## Findings

| source | as written | input that shows it | evidently intended | confidence | as-written member | corrected member |
|---|---|---|---|---|---|---|
| src/app/api/payment-success/route.ts:28-48 | a payer with no stored record is built with `email: ""` and saved, but src/models/User.ts:31 marks `email` as a required string, and the required check refuses an empty string, so the save throws and the handler answers 500 "Failed to record payment" | an empty store and the request `{clerkId: "u1", paymentIntentId: "pi_1", planId: "pro", amount: 2999}` with "pro" in the catalog | the record is created with a placeholder email, to be filled in by the next sign-in sync | not executed; medium: rests on the document store's required check treating `""` as missing | `PaymentSuccessRoute.UnstoredPayerPaymentFails` | `PaymentSuccessRoute.CreatesUnknownUser` |

The rest of the model uses the intended handler `PaymentSuccessRoute.RecordPayment`.
`PaymentSuccessRoute.RecordPaymentAsWritten` models the code as written. `PaymentSuccessRoute.AsWrittenAgreesForStoredPayer` shows that, for a valid store and catalog, the two differ only for a payer with no stored record or an empty email.

## Left out

- Persistence: MongoDB connection, model registration, and failure of a
  read or write, which the handlers answer with a generic 500. A save
  succeeds in the model except where the unique index refuses it
  (`UsersRoute.CreateUser`) or the required check does
  (`PaymentSuccessRoute.RecordPaymentAsWritten`).
- PaymentSuccessRoute.RecordPayment: models the intended behaviour. As
  written, a payer with no stored record gets a 500 "Failed to record
  payment" and nothing is saved, because the new record's email is empty
  (`PaymentSuccessRoute.RecordPaymentAsWritten`).
- PaymentSuccessRoute.CreatesUnknownUser: states the intended creation. As
  written, that save fails with 500 and no record is created
  (`PaymentSuccessRoute.UnstoredPayerPaymentFails`).
- Lifecycle.FirstPaymentThenRenewal: its first payment is such a creation.
  As written, that payment answers 500 and the sequence does not happen.
- The schema's required check on save is modelled only for the payment
  handler (`UserModel.SaveValidated`). The other handlers save records
  that already carry a non-empty email, or they write one from a truthy
  request field. `UserModel.ValidUser` leaves out the email because the
  intended payment handler stores an empty one.
- Concurrency: two overlapping requests for the same user can overwrite
  each other's write. Each handler is modelled as one atomic step.
- Clock reads: every request's clock reads (the upgrade handler's two,
  the payment handler's, `POST /api/users`'s, the schema's timestamp
  defaults and the pre-save hook) are modelled as the single reading
  `clock.now`, and an absent end date in an upgrade reads as `now`. Calendar
  month arithmetic (`setMonth(getMonth() + 1)`) is the input
  `Clock.oneMonthLater`.
- Floating point: money is exact `real`, with no double rounding in `/30`.
  `Math.ceil` of the day count is exact integer ceiling. This agrees with
  double arithmetic for realistic timestamps, because the fractional part
  of a quotient by 86 400 000 is never smaller than one part in 86 400 000.
- Request bodies: the model covers only absent, empty or zero fields and
  values of the expected type. It leaves out `null` where a default
  applies, NaN, and non-string or non-number JSON values. `quantity` is an
  integer.
- CheckoutRoute.IntToDecimal: `quantity` is a safe integer (magnitude
  below 2^53); beyond that JavaScript rounds it when the body is parsed and
  in `finalAmount * quantity`, and from 10^21 `toString` uses exponent
  notation (`"1e+21"`), where the model writes every digit.
- CheckoutRoute.ToLowerAscii: maps only ASCII letters, not full Unicode
  case mapping.
- The payment provider: its price lookup is the input `unitAmount`. The
  intent it creates, and its client secret and id, are out; the model
  stops at the intent's parameters. A throwing lookup (a 500) is out.
- Proration.NoChargeWithoutPriceIncrease: requires a non-negative
  balance. With a negative balance the charge is `-credits`, which is
  positive. The store invariant keeps balances non-negative.
- The response of `/api/users/cancel` is modelled. The `if (user.currentPlan)`
  guard is modelled as always true, because a nested schema path is always
  present on a loaded document.
- Everything outside the handlers: pages, visual components, client-side
  payment and sync calls, the product setup script, and display formatting.
