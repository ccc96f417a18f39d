/** The request-field validators that run before the service sees a request:
    card number and CVC format, the three-letter currency code, and the numeric
    range constraints on expiry and amounts. */
module Schemas {
  import opened Results
  import opened CardValidator

  predicate IsAsciiLetter(c: char) {
    ('A' <= c <= 'Z') || ('a' <= c <= 'z')
  }

  /** Python's `str.isalpha()` restricted to ASCII: non-empty and all letters. */
  predicate IsAlphaString(s: string) {
    |s| > 0 && forall i :: 0 <= i < |s| ==> IsAsciiLetter(s[i])
  }

  function ToUpper(c: char): (u: char)
    ensures IsAsciiLetter(c) ==> 'A' <= u <= 'Z'
    ensures !('a' <= c <= 'z') ==> u == c
  {
    if 'a' <= c <= 'z' then (c as int - 'a' as int + 'A' as int) as char else c
  }

  /** `str.upper()` restricted to ASCII. */
  function Upper(s: string): (r: string)
    ensures |r| == |s|
    ensures forall i :: 0 <= i < |s| ==> r[i] == ToUpper(s[i])
  {
    seq(|s|, i requires 0 <= i < |s| => ToUpper(s[i]))
  }

  /** The ways a request field can be rejected. */
  datatype FieldError =
    | CardNumberFormat   // 'Invalid card number format'
    | CvcFormat          // 'CVC must be 3 or 4 digits'
    | CurrencyFormat     // 'Currency must be a 3-letter code'
    | ExpMonthRange      // exp_month outside 1..12
    | ExpYearRange       // exp_year below 2024
    | AmountNotPositive  // an amount that is not greater than zero

  /** `CardInput.validate_card_number`: strip separators, then demand 15 or 16 digits. */
  function ValidateCardNumber(v: string): (r: Result<string, FieldError>)
    ensures r.Ok? <==> IsDigitString(Normalize(v)) && (|Normalize(v)| == 15 || |Normalize(v)| == 16)
    ensures r.Ok? ==> r.value == Normalize(v) && AllDigits(r.value)
    ensures r.Err? ==> r.error == CardNumberFormat
  {
    var n := Normalize(v);
    if !IsDigitString(n) || !(|n| == 15 || |n| == 16) then Err(CardNumberFormat) else Ok(n)
  }

  /** `CardInput.validate_cvc`: 3 or 4 digits, returned unchanged. */
  function ValidateCvc(v: string): (r: Result<string, FieldError>)
    ensures r.Ok? <==> AllDigits(v) && (|v| == 3 || |v| == 4)
    ensures r.Ok? ==> r.value == v
    ensures r.Err? ==> r.error == CvcFormat
  {
    if !IsDigitString(v) || !(|v| == 3 || |v| == 4) then Err(CvcFormat) else Ok(v)
  }

  /** `PaymentCreate.validate_currency`: exactly three letters, uppercased. The
      code is not checked against the ISO 4217 list. */
  function ValidateCurrency(v: string): (r: Result<string, FieldError>)
    ensures r.Ok? <==> |v| == 3 && IsAlphaString(v)
    ensures r.Ok? ==> |r.value| == 3 && forall i :: 0 <= i < 3 ==> 'A' <= r.value[i] <= 'Z'
    ensures r.Ok? ==> forall i :: 0 <= i < 3 ==> ToUpper(v[i]) == r.value[i]
    ensures r.Err? ==> r.error == CurrencyFormat
  {
    if |v| != 3 || !IsAlphaString(v) then Err(CurrencyFormat) else Ok(Upper(v))
  }

  /** An accepted currency is accepted again, unchanged. */
  lemma CurrencyIdempotent(v: string)
    requires ValidateCurrency(v).Ok?
    ensures ValidateCurrency(ValidateCurrency(v).value) == ValidateCurrency(v)
  {
    var u := ValidateCurrency(v).value;
    assert Upper(u) == u;
  }

  /** An accepted card number is already normal, and validating it again gives
      it back unchanged. */
  lemma CardNumberIdempotent(v: string)
    requires ValidateCardNumber(v).Ok?
    ensures Normalize(ValidateCardNumber(v).value) == ValidateCardNumber(v).value
    ensures ValidateCardNumber(ValidateCardNumber(v).value) == ValidateCardNumber(v)
  {
    NormalizeIdempotent(v);
  }

  /** A card number the request schema accepts clears `validate_card`'s length
      and digit checks, so `validate_card` can only reject it for a later reason. */
  lemma AcceptedNumberPassesFormatChecks(v: string, expMonth: int, expYear: int, cvc: string, today: YearMonth)
    requires ValidateCardNumber(v).Ok?
    ensures var n := ValidateCardNumber(v).value;
            Passes(BadLength, Normalize(n), expMonth, expYear, cvc, today)
            && Passes(NotAllDigits, Normalize(n), expMonth, expYear, cvc, today)
    ensures var r := ValidateCard(ValidateCardNumber(v).value, expMonth, expYear, cvc, today);
            r.1 != BadLength.Reason() && r.1 != NotAllDigits.Reason()
  {
    NormalizeIdempotent(v);
    var n := ValidateCardNumber(v).value;
    ValidateCardReportsFirstFailure(n, expMonth, expYear, cvc, today);
    var f := FirstFailing(CheckOrder, Normalize(n), expMonth, expYear, cvc, today);
    if f.Some? {
      assert CheckOrder[0] == BadLength && CheckOrder[1] == NotAllDigits;
      assert f.value >= 2;
      ReasonsDistinct(CheckOrder[f.value], BadLength);
      ReasonsDistinct(CheckOrder[f.value], NotAllDigits);
    }
  }

  /** The schema's CVC rule and the validator's CVC check agree. */
  lemma CvcRulesAgree(v: string)
    ensures ValidateCvc(v).Ok? <==> IsValidCvc(v)
  {
  }

  // ---------------------------------------------------------------------------
  // Request bodies
  // ---------------------------------------------------------------------------

  /** A card as it arrives in a request. */
  datatype CardRequest = CardRequest(number: string, expMonth: int, expYear: int, cvc: string)

  /** A card after `CardInput` accepted it; the number is normalised. */
  datatype CardInput = CardInput(number: string, expMonth: int, expYear: int, cvc: string)

  const MinExpYear := 2024

  /** The `CardInput` model: every field is validated, in declaration order,
      and every failure is reported. */
  function ParseCardInput(c: CardRequest): (r: Result<CardInput, seq<FieldError>>)
    ensures r.Ok? <==> ValidateCardNumber(c.number).Ok? && 1 <= c.expMonth <= 12
                       && c.expYear >= MinExpYear && ValidateCvc(c.cvc).Ok?
    ensures r.Ok? ==> r.value == CardInput(Normalize(c.number), c.expMonth, c.expYear, c.cvc)
    ensures r.Err? ==> |r.error| > 0
    ensures r.Err? ==> (CardNumberFormat in r.error <==> ValidateCardNumber(c.number).Err?)
    ensures r.Err? ==> (ExpMonthRange in r.error <==> !(1 <= c.expMonth <= 12))
    ensures r.Err? ==> (ExpYearRange in r.error <==> c.expYear < MinExpYear)
    ensures r.Err? ==> (CvcFormat in r.error <==> ValidateCvc(c.cvc).Err?)
    ensures r.Err? ==> forall e :: e in r.error ==> e in {CardNumberFormat, ExpMonthRange, ExpYearRange, CvcFormat}
  {
    var number := ValidateCardNumber(c.number);
    var cvc := ValidateCvc(c.cvc);
    var errors :=
      (if number.Err? then [number.error] else [])
      + (if 1 <= c.expMonth <= 12 then [] else [ExpMonthRange])
      + (if c.expYear >= MinExpYear then [] else [ExpYearRange])
      + (if cvc.Err? then [cvc.error] else []);
    if errors == [] then Ok(CardInput(number.value, c.expMonth, c.expYear, cvc.value))
    else Err(errors)
  }

  /** A payment-creation request; `currency` is None when the field is omitted.
      Amounts are in minor currency units. */
  datatype PaymentRequest = PaymentRequest(
    amount: int,
    currency: Option<string>,
    card: CardRequest,
    customerEmail: Option<string>,
    customerName: Option<string>,
    description: Option<string>
  )

  /** A payment-creation request after `PaymentCreate` accepted it. */
  datatype PaymentCreate = PaymentCreate(
    amount: nat,
    currency: string,
    card: CardInput,
    customerEmail: Option<string>,
    customerName: Option<string>,
    description: Option<string>
  )

  const DefaultCurrency := "USD"

  /** The `PaymentCreate` model: amount greater than zero, currency defaulting to
      "USD" and otherwise validated, and the nested card. */
  function ParsePaymentCreate(req: PaymentRequest): (r: Result<PaymentCreate, seq<FieldError>>)
    ensures r.Ok? <==> req.amount > 0 && ParseCardInput(req.card).Ok?
                       && (req.currency.Some? ==> ValidateCurrency(req.currency.value).Ok?)
    ensures r.Ok? ==> r.value.amount == req.amount && r.value.amount > 0
    ensures r.Ok? ==> |r.value.currency| == 3 && forall i :: 0 <= i < 3 ==> 'A' <= r.value.currency[i] <= 'Z'
    ensures r.Ok? && req.currency.None? ==> r.value.currency == "USD"
    ensures r.Ok? && req.currency.Some? ==> r.value.currency == ValidateCurrency(req.currency.value).value
    ensures r.Ok? ==> r.value.card == ParseCardInput(req.card).value
    ensures r.Ok? ==> r.value.customerEmail == req.customerEmail && r.value.customerName == req.customerName
                      && r.value.description == req.description
    ensures r.Err? ==> |r.error| > 0
  {
    var currency := if req.currency.None? then Ok(DefaultCurrency) else ValidateCurrency(req.currency.value);
    var card := ParseCardInput(req.card);
    var errors :=
      (if req.amount > 0 then [] else [AmountNotPositive])
      + (if currency.Err? then [currency.error] else [])
      + (if card.Err? then card.error else []);
    if errors == [] then
      Ok(PaymentCreate(req.amount, currency.value, card.value, req.customerEmail, req.customerName, req.description))
    else Err(errors)
  }

  /** A rejected body reports every rule it breaks, as pydantic collects all
      field errors: the amount error exactly when the amount is not positive,
      the currency error exactly when a given currency is malformed, and every
      error of the nested card. */
  lemma ParsePaymentCreateReportsAll(req: PaymentRequest)
    requires ParsePaymentCreate(req).Err?
    ensures AmountNotPositive in ParsePaymentCreate(req).error <==> req.amount <= 0
    ensures CurrencyFormat in ParsePaymentCreate(req).error
            <==> req.currency.Some? && ValidateCurrency(req.currency.value).Err?
    ensures ParseCardInput(req.card).Err? ==>
              forall e :: e in ParseCardInput(req.card).error ==> e in ParsePaymentCreate(req).error
  {
  }

  /** An accepted request body, sent back as a request. */
  function AsRequest(c: PaymentCreate): PaymentRequest {
    PaymentRequest(c.amount, Some(c.currency), CardRequest(c.card.number, c.card.expMonth, c.card.expYear, c.card.cvc),
                   c.customerEmail, c.customerName, c.description)
  }

  /** Parsing is a projection: a body `PaymentCreate` accepted is accepted again,
      unchanged, when its cleaned fields are submitted. */
  lemma ParsePaymentCreateIdempotent(req: PaymentRequest)
    requires ParsePaymentCreate(req).Ok?
    ensures ParsePaymentCreate(AsRequest(ParsePaymentCreate(req).value)) == ParsePaymentCreate(req)
  {
    var c := ParsePaymentCreate(req).value;
    CardNumberIdempotent(req.card.number);
    assert ParseCardInput(AsRequest(c).card) == Ok(c.card);
    if req.currency.Some? {
      CurrencyIdempotent(req.currency.value);
    } else {
      assert Upper(DefaultCurrency) == DefaultCurrency;
    }
  }

  /** The optional amount of `PaymentCapture` and `RefundCreate`: when present,
      greater than zero. */
  function ParseOptionalAmount(amount: Option<int>): (r: Result<Option<nat>, FieldError>)
    ensures r.Ok? <==> (amount.Some? ==> amount.value > 0)
    ensures r.Ok? ==> (r.value.None? <==> amount.None?)
    ensures r.Ok? && amount.Some? ==> r.value.value == amount.value && r.value.value > 0
    ensures r.Err? ==> r.error == AmountNotPositive
  {
    match amount
    case None => Ok(None)
    case Some(a) => if a > 0 then Ok(Some(a)) else Err(AmountNotPositive)
  }

  /** A refund request after `RefundCreate` accepted it. */
  datatype RefundCreate = RefundCreate(amount: Option<nat>, reason: Option<string>)
}
