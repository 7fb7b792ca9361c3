/** `POST /api/create-checkout-session`: chooses the amount of a payment
    intent and assembles the parameters sent to the payment provider. The
    provider's price lookup is an input; creating the intent is not
    modelled beyond its parameters. */
module CheckoutRoute {
  import opened Wrappers
  import opened Api

  datatype CheckoutRequest = CheckoutRequest(
    priceId: Option<string>,
    quantity: Option<int>,
    customerEmail: Option<string>,
    metadata: Option<map<string, string>>,
    amount: Option<real>,
    currency: Option<string>)

  /** The parameters of the payment intent to create. */
  datatype IntentParams = IntentParams(
    amount: real,
    currency: string,
    automaticPaymentMethods: bool,
    metadata: map<string, string>)

  const AmountRequired := "Amount is required and must be greater than 0"

  /** The amount to charge per unit: the explicit amount, unless it is falsy
      and a price id is given, in which case the looked-up unit amount of
      that price (`unitAmount`, null reading as 0). */
  function ResolveAmount(req: CheckoutRequest, unitAmount: Option<real>): (r: Option<real>)
    ensures NonZero(req.amount) ==> r == req.amount
    ensures !Present(req.priceId) ==> r == req.amount
    ensures Present(req.priceId) && !NonZero(req.amount) ==> r == Some(unitAmount.GetOr(0.0))
  {
    if Present(req.priceId) && !NonZero(req.amount) then
      Some(if NonZero(unitAmount) then unitAmount.value else 0.0)
    else req.amount
  }

  /** `quantity` defaults to 1 when absent. */
  function Quantity(req: CheckoutRequest): int {
    req.quantity.GetOr(1)
  }

  /** `currency` defaults to "usd" and is lower-cased. */
  function Currency(req: CheckoutRequest): (c: string)
    ensures req.currency.None? ==> c == "usd"
    ensures req.currency.Some? ==> c == ToLowerAscii(req.currency.value)
    ensures forall i | 0 <= i < |c| :: !IsUpper(c[i])
  {
    ToLowerAscii(req.currency.GetOr("usd"))
  }

  /** The caller's metadata, overridden by the price id, the quantity as a
      decimal string and the customer email, absent ones written as "". */
  function IntentMetadata(req: CheckoutRequest): (m: map<string, string>)
    ensures m.Keys == req.metadata.GetOr(map[]).Keys + {"priceId", "quantity", "customerEmail"}
    ensures m["priceId"] == req.priceId.GetOr("")
    ensures m["quantity"] == IntToDecimal(Quantity(req))
    ensures m["customerEmail"] == req.customerEmail.GetOr("")
    ensures forall k | k in req.metadata.GetOr(map[]) && k != "priceId" && k != "quantity" && k != "customerEmail"
              :: m[k] == req.metadata.GetOr(map[])[k]
  {
    req.metadata.GetOr(map[])[
      "priceId" := if Present(req.priceId) then req.priceId.value else ""][
      "quantity" := IntToDecimal(Quantity(req))][
      "customerEmail" := if Present(req.customerEmail) then req.customerEmail.value else ""]
  }

  /** The handler. A resolved amount that is missing, zero or negative
      answers 400 and no intent is created; otherwise the intent charges the
      amount times the quantity, which itself is not validated. */
  function CreatePaymentIntent(req: CheckoutRequest, unitAmount: Option<real>): (r: Result<IntentParams, ApiError>)
    ensures var a := ResolveAmount(req, unitAmount);
      r.Success? <==> a.Some? && a.value > 0.0
    ensures r.Failure? ==> r.error == BadRequest(AmountRequired)
    ensures r.Success? ==>
            && r.value.amount == ResolveAmount(req, unitAmount).value * Quantity(req) as real
            && r.value.currency == Currency(req)
            && r.value.automaticPaymentMethods
            && r.value.metadata == IntentMetadata(req)
  {
    IntentFor(req, ResolveAmount(req, unitAmount))
  }

  /** Validates the resolved per-unit amount `a` and builds the intent. */
  function IntentFor(req: CheckoutRequest, a: Option<real>): Result<IntentParams, ApiError> {
    if !(a.Some? && a.value != 0.0) || a.value <= 0.0 then
      Failure(BadRequest(AmountRequired))
    else
      Success(IntentParams(a.value * Quantity(req) as real, Currency(req), true, IntentMetadata(req)))
  }

  /** A truthy explicit amount wins: the price lookup cannot change the
      outcome. */
  lemma ExplicitAmountWins(req: CheckoutRequest, u1: Option<real>, u2: Option<real>)
    requires NonZero(req.amount)
    ensures CreatePaymentIntent(req, u1) == CreatePaymentIntent(req, u2)
    ensures req.amount.value > 0.0 ==> CreatePaymentIntent(req, u1).Success?
  {
    assert ResolveAmount(req, u1) == ResolveAmount(req, u2);
  }

  /** Without a price id nothing is looked up, and an amount that is not
      positive is refused. */
  lemma NoPriceIdNoLookup(req: CheckoutRequest, u1: Option<real>, u2: Option<real>)
    requires !Present(req.priceId)
    ensures CreatePaymentIntent(req, u1) == CreatePaymentIntent(req, u2)
    ensures CreatePaymentIntent(req, u1).Success? <==> req.amount.Some? && req.amount.value > 0.0
  {
    assert ResolveAmount(req, u1) == ResolveAmount(req, u2);
  }

  // ASCII case mapping and decimal rendering

  predicate IsUpper(c: char) {
    'A' <= c <= 'Z'
  }

  function LowerChar(c: char): (r: char)
    ensures !IsUpper(r)
    ensures IsUpper(c) ==> r as int == c as int + 32
    ensures !IsUpper(c) ==> r == c
  {
    if IsUpper(c) then (c as int + 32) as char else c
  }

  /** `toLowerCase` on the ASCII letters; other characters are kept. */
  function ToLowerAscii(s: string): (r: string)
    ensures |r| == |s|
    ensures forall i | 0 <= i < |r| :: !IsUpper(r[i])
    ensures forall i | 0 <= i < |s| && !IsUpper(s[i]) :: r[i] == s[i]
    ensures forall i | 0 <= i < |s| && IsUpper(s[i]) :: r[i] as int == s[i] as int + 32
  {
    seq(|s|, i requires 0 <= i < |s| => LowerChar(s[i]))
  }

  /** Lower-casing twice is lower-casing once. */
  lemma ToLowerIdempotent(s: string)
    ensures ToLowerAscii(ToLowerAscii(s)) == ToLowerAscii(s)
  {
  }

  predicate IsDigit(c: char) {
    '0' <= c <= '9'
  }

  function DigitChar(d: int): (c: char)
    requires 0 <= d < 10
    ensures IsDigit(c) && c as int - '0' as int == d
  {
    ('0' as int + d) as char
  }

  /** The decimal digits of `n`, most significant first, without leading
      zeros. */
  function NatToDecimal(n: nat): (s: string)
    ensures |s| >= 1
    ensures forall i | 0 <= i < |s| :: IsDigit(s[i])
    ensures s[0] == '0' ==> n == 0
    decreases n
  {
    if n < 10 then [DigitChar(n)] else NatToDecimal(n / 10) + [DigitChar(n % 10)]
  }

  /** The number a string of decimal digits denotes. */
  function DecimalValue(s: string): nat
    requires forall i | 0 <= i < |s| :: IsDigit(s[i])
    decreases |s|
  {
    if |s| == 0 then 0
    else
      assert IsDigit(s[|s| - 1]);
      DecimalValue(s[..|s| - 1]) * 10 + (s[|s| - 1] as int - '0' as int)
  }

  /** Reading back the rendered digits yields the number. */
  lemma {:induction false} DecimalRoundTrip(n: nat)
    ensures DecimalValue(NatToDecimal(n)) == n
    decreases n
  {
    if n >= 10 {
      var s := NatToDecimal(n);
      DecimalRoundTrip(n / 10);
      assert s[..|s| - 1] == NatToDecimal(n / 10);
    }
  }

  /** `toString` of a safe integer (magnitude below 2^53): a minus sign
      exactly for negative numbers, followed by the decimal digits of the
      magnitude. */
  function IntToDecimal(i: int): (s: string)
    ensures |s| >= 1
    ensures i < 0 <==> s[0] == '-'
    ensures var digits := if i < 0 then s[1..] else s;
      && |digits| >= 1
      && (forall k | 0 <= k < |digits| :: IsDigit(digits[k]))
      && DecimalValue(digits) == if i < 0 then -i else i
  {
    if i < 0 then
      DecimalRoundTrip(-i);
      assert ("-" + NatToDecimal(-i))[1..] == NatToDecimal(-i);
      "-" + NatToDecimal(-i)
    else
      DecimalRoundTrip(i);
      NatToDecimal(i)
  }
}
