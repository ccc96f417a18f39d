# Payment simulator core in Dafny

This project models the decision logic of a small payment-processing simulator:

- **Card validation** (`CardValidator`).
  - Normalising a card number.
  - The Luhn mod-10 checksum of ISO/IEC 7812-1, Annex B.
  - Brand detection by ordered prefix match.
  - The ordered, short-circuiting `validate_card`, which returns `(ok, reason)`.
  - Masking of card numbers.
- **Request validators** (`Schemas`). These are the pydantic field checks on card number, CVC and currency, plus the numeric range constraints. They are modelled as functions that return either the cleaned value or field errors.
- **Data model** (`Models`).
  - The nine-value `PaymentStatus` enumeration with its string codes.
  - The `Payment`, `PaymentEvent` and `Refund` records, with their id prefixes and defaults.
- **Payment service** (`PaymentService`). The lifecycle state machine: create, authorize, capture, cancel, refund, get and list events.
  - Each operation is a pure function from a store (payments, per-payment event logs, refunds) to a new store, or to a typed error (`NotFound`, `InvalidState`, `AmountExceeded`).
  - The clock, uuids and random draws of one call are passed in as an `Env` record:
    - `now` and `today`;
    - `approved`, which stands for the issuer's random decision;
    - `authPicks`, which stands for the six random characters of an authorization code;
    - one hex string for the new payment or refund id and two for event ids.
- **Store invariant** (`ServiceProperties`).
  - Every stored payment rests in a non-intermediate status: never PENDING, PROCESSING or REFUND_PENDING.
  - Every log is non-empty and ends with the payment's current status.
  - Every refund belongs to a REFUNDED payment and is bounded by its amount.
  - Each payment has at most one refund.
  - Every operation preserves this invariant and only ever appends to logs.
- **Whole runs** (`Lifecycle`). A dispatcher over all seven calls, with the invariant lifted to any sequence of calls.
- **Concrete runs** (`Scenarios`).
  - The happy path of an accepted order, with its seven events in order.
  - A rejected card.
  - The deny-listed test card.
  - An over-large capture.

Amounts are natural numbers in minor currency units. The model follows these behaviours of the code:

- An order whose card fails `validate_card` is stored with status FAILED and the validator's reason (app/services/payment_service.py:68-70). It is not stored as CREATED with an error. Authorizing it is therefore refused.
- `get_payment_events` returns an empty log for an unknown id. It does not report an error.
- The `error_message` branch of authorization logs only the `payment.authorization_requested` event. Under the store invariant this branch is unreachable, because a CREATED payment never carries an error (`ServiceProperties.AuthorizeErrorBranchUnreachable`).
- The captured amount is never stored. A refund is bounded by the payment's full amount, not by what was captured (`ServiceProperties.RefundMayExceedCapture`).

## Model

| member | source | states |
|---|---|---|
| Models.StatusCodesDistinct | app/models/payment.py:8-18 | There are exactly nine statuses, every status is in the list, and their string codes are pairwise distinct |
| Models.StatusRoundTrip | app/models/payment.py:8-18 | Parsing a status's string code gives that status back |
| Models.ParseStatus | app/models/payment.py:8-18 | A string that parses to a status is that status's code |
| Models.PrefixedId | app/models/payment.py:24-76 | An id is its four-character table prefix followed by the uuid hex, unchanged |
| Models.PaymentId | app/models/payment.py:24 | A payment id is `pay_` followed by the uuid hex, unchanged |
| Models.EventId | app/models/payment.py:61 | An event id is `evt_` followed by the uuid hex |
| Models.RefundId | app/models/payment.py:76 | A refund id is `ref_` followed by the uuid hex |
| Models.IdsInjective | app/models/payment.py:24-76 | Distinct hex strings give distinct ids of each kind, and no payment, event and refund id can coincide |
| Models.NewPayment | app/models/payment.py:21-51 | A fresh payment is CREATED in "USD". It has no authorization code, error, authorized_at or captured_at. Its created and updated times are equal, and it is consistent |
| Models.EventNamesDistinct | app/services/payment_service.py:77-258 | Two event kinds have the same name exactly when they are the same kind |
| Models.NewRefund | app/models/payment.py:72-82 | A fresh refund has status "pending", no processed_at, and the given payment, amount and reason |
| CardValidator.Normalize | app/services/card_validator.py:50 | The normalised number contains no whitespace or `-` and is no longer than the input |
| CardValidator.NormalizeConcat | app/services/card_validator.py:50 | Normalisation works character by character: it distributes over concatenation |
| CardValidator.NormalizeFixesClean | app/services/card_validator.py:50 | A string without separators is left unchanged |
| CardValidator.NormalizeSingle | app/services/card_validator.py:50 | A single whitespace or `-` character normalises to the empty string, and any other character is kept. With NormalizeConcat this determines the result on every string: exactly the separators are removed, in place |
| CardValidator.NormalizeIdempotent | app/services/card_validator.py:50 | Normalising twice is the same as normalising once |
| CardValidator.SlicesMatchAnnexB | app/services/card_validator.py:13-21 | The undoubled slice `[-1::-2]` plus the digit sums of the doubled slice `[-2::-2]` equal the Annex B weighted total, for every digit sequence |
| CardValidator.DoubledDigitSum | app/services/card_validator.py:19 | The digit sum of a doubled digit is the double, less nine when the double exceeds nine |
| CardValidator.LuhnCheck | app/services/card_validator.py:5-21 | `luhn_check` on a digit string holds exactly when the Annex B weighted total is a multiple of ten |
| CardValidator.LuhnMatchesAnnexB | app/services/card_validator.py:5-21 | `luhn_check` holds exactly when the Annex B total is a multiple of ten |
| CardValidator.ExactlyOneCheckDigit | app/services/card_validator.py:13-21 | With all other digits fixed, a last digit passes `luhn_check` exactly when it equals the single check digit |
| CardValidator.CompletingDigit | app/services/card_validator.py:21 | Among 0..9, exactly one digit brings a total to a multiple of ten |
| CardValidator.Luhn4242 | app/services/card_validator.py:5-21 | 4242424242424242 passes the checksum |
| CardValidator.Luhn4241 | app/services/card_validator.py:5-21 | 4242424242424241 fails the checksum |
| CardValidator.BrandPatternRows | app/services/card_validator.py:29-35 | Each brand's prefixes: leading 4 for "card"; 51-55 or 22-27 for mastercard; 34 or 37 for amex; 6011 or 65 for discover; 35 for jcb |
| CardValidator.GetCardBrand | app/services/card_validator.py:24-41 | The brand of a number is the first row of the ordered prefix table that the normalised number matches, or unknown |
| CardValidator.BrandIsFirstMatch | app/services/card_validator.py:29-41 | Trying the five patterns in order gives the brand of the first table row that matches |
| CardValidator.BrandRowsDisjoint | app/services/card_validator.py:29-41 | No normalised number matches two brand rows, so the table order never decides between brands |
| CardValidator.IsExpired | app/services/card_validator.py:65-67 | For months in 1..12, a card is expired exactly when its (year, month) comes before today's in month order |
| CardValidator.ExpiryIsMonthOrder | app/services/card_validator.py:65-67 | A card is expired exactly when (year, month) comes before today's in month order. A card expiring this month is not expired |
| CardValidator.FirstFailing | app/services/card_validator.py:52-76 | Reference for a short-circuiting check list. It gives no index exactly when every check passes. Otherwise the check at the index fails and every earlier check passes |
| CardValidator.ValidateCard | app/services/card_validator.py:44-78 | The flag is true exactly when every check passes on the normalised number. The reason is "" on success and non-empty on failure |
| CardValidator.ValidateCardReportsFirstFailure | app/services/card_validator.py:50-78 | The result is `(true, "")` when no check fails. Otherwise it is `(false, reason)` for the first failing check in the order length, digits, Luhn, expiry, CVC, deny list |
| CardValidator.ReasonsDistinct | app/services/card_validator.py:53-76 | The six rejection reasons are pairwise distinct, so a reason identifies its check |
| CardValidator.CleanNumberAccepted | app/services/card_validator.py:52-78 | A separator-free number of 15 or 16 digits that passes Luhn, is not expired, has a valid CVC and is not deny-listed is accepted |
| CardValidator.LuhnDeclined0002 | app/services/card_validator.py:74 | 4000000000000002 is all digits and passes the checksum |
| CardValidator.LuhnDeclined9995 | app/services/card_validator.py:74 | 4000000000009995 is all digits and passes the checksum |
| CardValidator.DenyListIsLastCheck | app/services/card_validator.py:73-76 | A deny-listed number that clears every earlier check is declined with "Card declined by issuer" |
| CardValidator.DeclinedTestCardsDecline | app/services/card_validator.py:73-76 | Both deny-listed numbers pass Luhn and are declined by the issuer whenever the expiry and CVC are valid |
| CardValidator.LastFour | app/services/payment_service.py:57 | The suffix `[-4:]`: four characters, or the whole string when it is shorter, and the input ends with it |
| CardValidator.MaskCardNumber | app/services/card_validator.py:81-84 | The mask is as long as the normalised number. All but its last four characters are `*`, and it ends with the number's last four digits |
| CardValidator.MaskIdempotent | app/services/card_validator.py:81-84 | Masking a masked number changes nothing |
| Schemas.ValidateCardNumber | app/models/schemas.py:15-22 | Accepted exactly when the normalised number is 15 or 16 digits. The value returned is the normalised number |
| Schemas.CardNumberIdempotent | app/models/schemas.py:15-22 | An accepted number is already normal, and validating it again returns it unchanged |
| Schemas.AcceptedNumberPassesFormatChecks | app/models/schemas.py:19-22 | A number `CardInput` accepts passes the length and digit checks of `validate_card`, so it is never rejected for either reason |
| Schemas.ValidateCvc | app/models/schemas.py:24-29 | Accepted exactly when the CVC is 3 or 4 digits. It is returned unchanged |
| Schemas.CvcRulesAgree | app/models/schemas.py:24-29 | The schema's CVC rule and `validate_card`'s CVC check accept the same strings |
| Schemas.ValidateCurrency | app/models/schemas.py:42-47 | Accepted exactly when the input is three letters. The result is the input uppercased |
| Schemas.CurrencyIdempotent | app/models/schemas.py:42-47 | Validating an accepted currency again returns it unchanged |
| Schemas.ParseCardInput | app/models/schemas.py:8-29 | Accepted exactly when the number and CVC validators accept and 1 <= exp_month <= 12 and exp_year >= 2024. Each violated rule is reported, and no other |
| Schemas.ParsePaymentCreate | app/models/schemas.py:32-47 | Accepted exactly when amount > 0, the card is accepted and any given currency is accepted. An omitted currency becomes "USD", a given one is the validated (uppercased) code. The card is the parsed card, and the customer fields are copied |
| Schemas.ParsePaymentCreateReportsAll | app/models/schemas.py:32-47 | A rejected body reports the amount error exactly when amount <= 0, the currency error exactly when a given currency is malformed, and every error of the nested card |
| Schemas.ParsePaymentCreateIdempotent | app/models/schemas.py:32-47 | An accepted body, submitted again with its cleaned fields, is accepted unchanged |
| Schemas.ParseOptionalAmount | app/models/schemas.py:73-81 | An absent capture or refund amount is accepted as absent. A present one is accepted exactly when it is greater than zero |
| PaymentService.GenerateAuthCode | app/services/payment_service.py:36-38 | The code has six characters from A-Z0-9, and each is the drawn index into that alphabet |
| PaymentService.LogEvent | app/services/payment_service.py:25-34 | Appends exactly one event to that payment's log and changes no other log, payment or refund |
| PaymentService.CreatePayment | app/services/payment_service.py:40-84 | The payment is CREATED with no error exactly when `validate_card` accepts. Otherwise it is FAILED with the validator's reason. It records amount, currency, last four, brand, expiry month and year, the customer fields, and both timestamps at the call's time. It stores the payment and appends one `payment.created` event with its status |
| PaymentService.AuthorizePayment | app/services/payment_service.py:86-132 | An unknown id gives NotFound, and a status other than CREATED gives InvalidState. On approval the payment becomes AUTHORIZED with the code drawn from the call's picks and authorized_at set, every other field unchanged, and the requested and authorized events are logged. On decline it becomes FAILED with the decline message and the requested and failed events. A payment that already has an error becomes FAILED with only the requested event |
| PaymentService.CapturePayment | app/services/payment_service.py:134-184 | Fails unless the payment is AUTHORIZED with an amount (defaulting to the full amount) no greater than the payment's. On approval the payment becomes SUCCEEDED with captured_at. Otherwise it becomes FAILED with the insufficient-funds message. Either way two events are appended and the amount is unchanged |
| PaymentService.CancelPayment | app/services/payment_service.py:186-205 | Succeeds exactly from CREATED or AUTHORIZED, moving to CANCELLED with one `payment.cancelled` event. Any other status gives InvalidState |
| PaymentService.CreateRefund | app/services/payment_service.py:207-261 | Succeeds exactly from SUCCEEDED with an amount (defaulting to the full amount) no greater than the payment's. The refund is "succeeded" with that amount, the payment id and reason of the request, and created and processed at the call's time. The payment becomes REFUNDED with the `refund.created` and `payment.refunded` events |
| PaymentService.GetPayment | app/services/payment_service.py:263-268 | Returns the stored payment exactly when the id is known, and NotFound otherwise |
| ServiceProperties.CreatePreservesInv | app/services/payment_service.py:40-84 | Creating a payment keeps the store invariant and only appends to logs |
| ServiceProperties.AuthorizeErrorBranchUnreachable | app/services/payment_service.py:108-110 | In a store satisfying the invariant, a CREATED payment carries no error message |
| ServiceProperties.AuthorizePreservesInv | app/services/payment_service.py:86-132 | A successful authorization keeps the invariant: the PENDING status is never left behind |
| ServiceProperties.CapturePreservesInv | app/services/payment_service.py:134-184 | A successful capture keeps the invariant: the PROCESSING status is never left behind |
| ServiceProperties.CancelPreservesInv | app/services/payment_service.py:186-205 | A successful cancellation keeps the invariant and only appends to logs |
| ServiceProperties.RefundPreservesInv | app/services/payment_service.py:207-261 | A successful refund keeps the invariant: REFUND_PENDING is never left behind, and the refund is the payment's only one |
| ServiceProperties.SecondRefundRejected | app/services/payment_service.py:216-217 | A second refund of the same payment is refused with InvalidState(REFUNDED) |
| ServiceProperties.TerminalStatusesRejectAll | app/services/payment_service.py:97-217 | From FAILED, CANCELLED or REFUNDED, authorize, capture, cancel and refund are all refused with InvalidState |
| ServiceProperties.RejectedCardCannotBeAuthorized | app/services/payment_service.py:68-98 | A payment created with a rejected card is FAILED, and authorizing it is refused |
| ServiceProperties.RefundMayExceedCapture | app/services/payment_service.py:166-222 | After a partial capture succeeds, a refund without an amount returns the full payment amount, which exceeds what was captured |
| Lifecycle.Step | app/services/payment_service.py:86-274 | A failed call and a read leave the store unchanged. Payments and refunds are never removed. A successful mutating call lengthens its payment's log, and a failure on an unknown id is NotFound. Listing events returns the log, and Get fails, with NotFound, exactly for an unknown id |
| ServiceProperties.EventsOfKnownPaymentsOnly | app/services/payment_service.py:270-274 | In a store satisfying the invariant, the event log is empty exactly for an unknown id, and a known payment's log ends with its current status |
| Lifecycle.StepPreservesInv | app/services/payment_service.py:40-274 | Every call keeps the invariant and only appends to logs |
| Lifecycle.RunPreservesInv | app/services/payment_service.py:40-274 | After any sequence of calls, the invariant holds, every payment is at rest, and every earlier log is a prefix of its later log |
| Lifecycle.ReachableAtRest | app/services/payment_service.py:100-178 | No store reachable from the empty store has a payment in PENDING, PROCESSING or REFUND_PENDING |
| Scenarios.AuthorizeApprovedKinds | app/services/payment_service.py:100-121 | An approved authorization appends exactly `payment.authorization_requested` and then `payment.authorized` |
| Scenarios.CaptureApprovedKinds | app/services/payment_service.py:153-174 | An approved capture appends exactly `payment.capture_requested` and then `payment.succeeded` |
| Scenarios.RefundKinds | app/services/payment_service.py:234-258 | A refund appends exactly `refund.created` and then `payment.refunded` |
| Scenarios.GoodCardAccepted | app/services/card_validator.py:44-78 | 4242424242424242 with a valid expiry and CVC is accepted |
| Scenarios.HappyPath | app/services/payment_service.py:40-261 | An accepted order that is created, authorized, captured in full and refunded in full ends REFUNDED. The refund is the full amount, and the log holds the seven events in order |
| Scenarios.GoodCardHappyPath | app/services/payment_service.py:40-261 | The 49.99 USD order on 4242424242424242 runs to REFUNDED with a full refund |
| Scenarios.RejectedOrderPath | app/services/payment_service.py:46-98 | A rejected order is stored FAILED with the validator's reason and a single `payment.created` event, and authorizing it is refused |
| Scenarios.DeniedTestCardPath | app/services/card_validator.py:73-76 | The order on 4000000000000002 is stored FAILED with "Card declined by issuer" and cannot be authorized |
| Scenarios.OverCapture | app/services/payment_service.py:144-151 | Capturing one unit more than the amount is refused and leaves the payment AUTHORIZED. Capturing exactly the amount succeeds |

## Left out

- HTTP routing (app/routes/payments.py), application setup (app/main.py) and the example client script are not part of this model. Service failures are the typed `ServiceError`, not HTTP status codes.
- Database sessions (add, commit, refresh) are not modelled. Each operation is one atomic store update. The intermediate commits of authorize, capture and refund are visible only through the events they log.
- Concurrent calls on the same payment are not modelled.
- uuid generation, the clock and `random` are inputs.
  - Ids come from hex strings in `Env`, and fresh ids are a precondition of create and refund. Id collisions are not modelled.
  - One `now` stands for every clock read within a call.
  - The issuer's decision and the six code characters are given, not drawn.
- Amounts are floats in the source. They are modelled as natural minor units, because the code only compares and copies them.
- Python's Unicode `isdigit`, `isalpha`, `upper` and the regex class `\s` are modelled on ASCII characters only.
- Payment metadata and event `data` beyond amount, currency, authorization code and refund id are not modelled.
- The text of InvalidState errors and of the pydantic validation errors is not modelled. The errors are datatypes.
- Ordering of events by `created_at` is modelled as append order. Events with equal timestamps are not reordered.
- The response schemas (PaymentResponse, RefundResponse, PaymentEventResponse) are not modelled. They only copy fields.
- A refund is never FAILED in the source, so the model never produces that status.
- CardValidator.Normalize: its contract states only that separators are gone and the string does not grow. That exactly the whitespace and `-` characters are removed, and everything else is kept in order, is stated by NormalizeSingle together with NormalizeConcat.
