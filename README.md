# Booking-and-payment flow of the cottage rental site

This project models the one piece of the rental site's request handlers
that carries real rules: the booking page's admission checks and pricing,
the payable amounts (full or prepayment), the payment table with its two
creation paths (simulated test mode and live gateway mode), the gateway's
webhook that reconciles a payment's status, and the owner checks on the
payment and success pages.

Modules, one per component:

- `Common` (common.dfy): option type, day ordinals, instants, exact money, viewer.
- `BookingRequest` (booking.dfy): the checks and pricing the `booking` view applies to its query parameters.
- `PaymentAmounts` (amounts.dfy): full amount, prepayment percentage (default 30), remaining amount, refund days (default 3).
- `Payments` (payments.dfy): payment rows, the row each creation path leaves behind, and the webhook as a function of the table, with its lemmas.
- `Access` (access.dfy): the payment page and the success page, shown only to the booking's owner.
- `Ledger` (ledger.dfy): class `PaymentLedger` holding the payment table as a map updated in place; its methods are the `create_yookassa_payment` helper, the `payment` and `payment_success` views and the webhook, each proved against the functions above.

Conventions of the model:

- Dates are day ordinals, so `nights = check_out - check_in`.
- Money is `real` and exact. This is a choice of the model: the field types of prices and totals are not part of this model, and whether the source computes with decimals or floats is left aside.
- A query parameter is `Absent`, `Blank`, `Unparsable` (a date, id or number that does not convert) or `Given(v)`.
- The clock (`timezone.now()`), `uuid.uuid4()`, the gateway's create call (a `GatewayReply`: it returns an id and a confirmation URL, or raises), the gateway's source-address check (a boolean) and JSON decoding of the webhook body (a `Notification`) are parameters.
- An exception the source does not catch is `ServerError`. The webhook raises one when the body does not decode, when the payment object has no `id`, when several rows carry the id, or when exactly one row carries the id and the object has no `status`. In each of these cases nothing is saved. An unknown id is acknowledged even when the object has no `status`, because the lookup fails before the status is read (`WebhookUncaughtFailures`).
- The source labels a payment method only by comparing it with `"full"`. Any other label is a prepayment.

Behaviours of the code that a reader might not expect, modelled as the code has them:

- A succeeded payment is not stamped only once. Every `succeeded` callback re-stamps `captured_at` (`RepeatedSuccessRestamps`).
- A captured row need not be succeeded. A later callback with another status keeps `captured_at`, so only "succeeded implies captured" holds (`WebhookKeepsCaptureConsistent`, `LaterStatusKeepsCaptureTime`).
- No status is final. The webhook overwrites the status unconditionally.
- The webhook does not always acknowledge. The exceptions listed above escape it.
- The query-parameter checks of the booking view (recreation/views.py:448-465) check no active flag, no guest count and no capacity, so a guest count of 0 or below passes them. Whatever the booking form checks on submission is not part of this model.

## Model

| member | source | states |
|---|---|---|
| BookingRequest.Validate | recreation/views.py:437-472 | anonymous users are sent to login; a missing parameter is rejected before anything is looked up or priced; an unknown house or an unconvertible value is invalid data; check-in before today and check-out not after check-in are rejected; acceptance holds exactly when all values are well formed and today <= check-in < check-out, and then nights = check-out - check-in >= 1 and the cost is the nightly price times nights |
| BookingRequest.AcceptedCostAtLeastOneNight | recreation/views.py:463-468 | with a non-negative nightly price, an accepted request costs at least one night |
| BookingRequest.ThreeNightsAtFiveThousand | recreation/views.py:459-468 | price 5000, three nights: accepted, cost 15000, guests default to 2 |
| BookingRequest.ReversedDatesRejected | recreation/views.py:463-465 | reversed dates are rejected with the check-out reason |
| PaymentAmounts.PercentOf | recreation/views.py:553 | the prepayment times 100 equals total times percent; 100 per cent is the total and 0 per cent is nothing |
| PaymentAmounts.AmountDue | recreation/views.py:630-637 | method "full" pays the total; any other method pays the configured percentage of the total |
| PaymentAmounts.Summarize | recreation/views.py:552-556 | the payment page shows the total, the prepayment and a remainder with prepayment + remainder = total, and the effective percentage and refund days |
| PaymentAmounts.PercentOfWithinTotal | recreation/views.py:553 | with 0 <= percent <= 100 and a non-negative total, the prepayment lies between 0 and the total |
| PaymentAmounts.PercentOfMonotonic | recreation/views.py:553 | for a non-negative total, a higher percentage never asks for less |
| PaymentAmounts.AmountDueWithinTotal | recreation/views.py:597-603 | with a non-negative total and a configured percentage between 0 and 100, whatever the method, the amount and the remainder lie between 0 and the total (the source itself does not bound the percentage) |
| PaymentAmounts.DefaultPrepaymentOfFifteenThousand | recreation/views.py:552-555 | total 15000 at the default percentage: prepayment 4500, remaining 10500 |
| Payments.Inserted | recreation/views.py:606-612 | the row as the create call inserts it (also recreation/views.py:641-646): the booking, the method's kind and amount, no capture time yet, in test mode succeeded with gateway id "test_" followed by the uuid, in live mode pending with no gateway id |
| Payments.Created | recreation/views.py:606-614 | the row an attempt leaves behind (also recreation/views.py:641-673): the same booking, kind, amount and status as inserted, a capture time exactly in test mode, and every succeeded row captured |
| Payments.LiveRequest | recreation/views.py:651-669 | the gateway request asks for the row's amount in RUB with capture on, returns to that row's success page, carries metadata naming the booking, the row and its kind, and uses the fresh uuid as idempotence key |
| Payments.Reported | recreation/views.py:975-978 | the reported status overwrites the row's status; a success is stamped with now, any other status keeps the old capture time; no other field changes; the result keeps succeeded rows captured |
| Payments.TestModeRecord | recreation/views.py:606-614 | in test mode the new row is succeeded, captured at the current time, with gateway id "test_" followed by the uuid |
| Payments.LiveModeRecord | recreation/views.py:641-673 | in live mode the new row is pending and uncaptured, and has a gateway id exactly when the gateway call returned, namely the gateway's id |
| Payments.CreatedRecordFacts | recreation/views.py:606-612 | the new row belongs to the booking and has the method's kind and amount; with a non-negative total and a configured percentage between 0 and 100 that amount lies within the total; a succeeded row is captured |
| Payments.Webhook | recreation/views.py:963-987 | a non-POST gets 400 "invalid method" and a request from an untrusted address gets 400 "invalid ip", both with the table unchanged; an unknown gateway id is acknowledged with the table unchanged; no row is ever added or removed; any reply other than the acknowledgement leaves the table unchanged |
| Payments.KnownIdUpdatesThatRow | recreation/views.py:974-980 | for a gateway id one row carries, the reply is the acknowledgement, that row's status becomes the reported one, its capture time becomes now if the status is "succeeded" and stays as it was otherwise, and every other row is unchanged |
| Payments.WebhookOnlyTouchesStatus | recreation/views.py:975-978 | booking, amount, kind and gateway id of every row survive the webhook |
| Payments.WebhookKeepsCaptureConsistent | recreation/views.py:975-978 | if every succeeded row was captured before the webhook, every succeeded row is captured after it |
| Payments.UpdateIsFromSoleMatch | recreation/views.py:965-980 | the table changes only for a trusted POST that names a gateway id carried by exactly one row and reports a status |
| Payments.WebhookUncaughtFailures | recreation/views.py:970-985 | for a trusted POST, an undecodable body, a missing id, several rows with the id, or a sole match without a status give a server error with the table unchanged; an unknown id is acknowledged with the table unchanged, status or not |
| Payments.DuplicateCallbackIdempotent | recreation/views.py:974-980 | delivering the same notification twice at the same moment gives the same reply and table as delivering it once |
| Payments.RepeatedSuccessRestamps | recreation/views.py:977-978 | a second "succeeded" callback overwrites the capture time with the later moment |
| Payments.LaterStatusKeepsCaptureTime | recreation/views.py:975-978 | a non-success status reported after a success keeps the first capture time, so a row can be captured without being succeeded |
| Payments.ReplayPreservesLedger | recreation/views.py:963-987 | after any sequence of notifications, the same rows exist, only status and capture time have changed, and succeeded rows are still captured |
| Access.PaymentPage | recreation/views.py:533-556 | anonymous users are sent to login; the page is shown exactly to the owner of an existing booking, with that booking's amounts; everyone else gets not-found |
| Access.SuccessPage | recreation/views.py:692-721 | never asks for login; shown exactly to the owner of the payment's booking, with that payment; a missing payment or another viewer gets not-found |
| Access.ForeignBookingLooksMissing | recreation/views.py:543-544 | another user's booking gives the same not-found answer as a booking that does not exist |
| Ledger.PaymentLedger.Insert | recreation/views.py:641-646 | a row is inserted under a fresh id and nothing else changes |
| Ledger.PaymentLedger.Save | recreation/views.py:614 | writing back a row replaces that row and nothing else (the same `save()` is at recreation/views.py:673 and 980) |
| Ledger.PaymentLedger.CreateYookassaPayment | recreation/views.py:592-689 | exactly one row is added under a fresh id, existing rows are unchanged, and the table stays consistent; test mode sends the user to the new payment's success page with no gateway request; live mode sends the gateway the amount in RUB, capture on and metadata naming the booking, the new payment and its kind, then redirects to the gateway if it returned or back to the booking's payment page if it raised |
| Ledger.PaymentLedger.PaymentView | recreation/views.py:533-589 | only the owner's submitted choice creates a payment (exactly one row), sending in live mode exactly the gateway request of `LiveRequest` and in test mode none; a visit, an invalid form, a foreign or missing booking and an anonymous user leave the table unchanged and get the page, not-found or the login redirect |
| Ledger.PaymentLedger.HandleWebhook | recreation/views.py:963-987 | the reply and the new table are those of the webhook function, and the table's invariants (fresh ids, bookings exist, succeeded rows captured) are kept |
| Ledger.RetryAfterGatewayFailure | recreation/views.py:678-689 | after a raising gateway call and a retry, the table holds two rows: the first still pending with no gateway id, the second carrying the gateway's id |

## Left out

- Page rendering, flash messages, URL building and the rating statistics shown in the header: presentation only.
- Debug `print` calls, and the `logger.error` calls that record a failed booking save or a failed payment creation with its traceback (recreation/views.py:679-681): diagnostics with no effect on the flow's state or answers.
- The `BookingForm` submission of the booking page (saving the booking and its services in a transaction): the form is not part of this model, so no capacity or overlap check is modelled either.
- The `PaymentMethodForm` validation: the model receives the cleaned method label, or none for a plain visit or an invalid form.
- The gateway SDK and its configuration (shop id, secret key): the create call is a `GatewayReply` parameter, and the request the model records leaves out the human-readable description and the return URL's text (it keeps the payment id the URL points to).
- The gateway's source-address check, the clock and uuid generation: parameters.
- Payments.Webhook: a row whose gateway call raised keeps the gateway-id column unset, and the model takes that unset value to match no notification. The Payment model's field definition is not part of this model, so a notification whose id is JSON `null` (an `IS NULL` lookup on a nullable column) or `""` (matching an empty default) is not modelled: in the source it may reach such rows, or raise when several of them exist.
- JSON decoding of the webhook body: the decoded result is a `Notification` parameter.
- Date parsing, any floating-point arithmetic and rounding, and two-decimal formatting: dates are day ordinals and money is exact. If prices or totals are floats, the rounding of the booking cost (recreation/views.py:468), of the payment page's prepayment and remainder (recreation/views.py:553-554), and of the stored and sent amounts after `float(...)` (recreation/views.py:598-602, 631-636, 653) is not modelled.
- The choice between the two user-facing error messages after a gateway failure, which depends on the exception's text: messages are presentation.
- Failures of database writes other than those listed above: the model's writes always succeed.
- The `nights` figure and services list shown on the payment page: display only.
- Concurrency between requests: the source does not address it.
- The other views (listing, cottage detail with its similar-houses price range, blog, reviews, registration, login, document download): routine pages outside the flow.
