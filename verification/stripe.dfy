/** The payment-provider request builder (src/lib/stripe.ts): a donation
    becomes one payment-intent request in cents, in US dollars, with the
    donation's id and type in its metadata. The provider itself is a
    parameter that may throw. */
module Stripe {
  import opened Js
  import opened DonationValidation

  /** The arguments of `createStripePaymentIntent`; the amount is in dollars. */
  datatype PaymentIntentParams = PaymentIntentParams(
    amount: real,
    donationType: DonationType,
    donorEmail: string,
    donationId: string,
    metadata: Option<map<string, string>>)

  /** What `stripe.paymentIntents.create` is handed. */
  datatype PaymentIntentRequest = PaymentIntentRequest(
    amount: int,
    currency: string,
    receiptEmail: string,
    metadata: map<string, string>,
    automaticPaymentMethods: bool)

  /** The part of the provider's payment intent the site reads. */
  datatype PaymentIntent = PaymentIntent(id: string, clientSecret: Option<string>)

  /** The provider: a request in, an intent out, or a throw. */
  type Provider = PaymentIntentRequest -> Outcome<PaymentIntent>

  /** `Math.round(amount * 100)`: dollars to whole cents. */
  function ToCents(amount: real): (cents: int)
    ensures amount * 100.0 - 0.5 < cents as real <= amount * 100.0 + 0.5
  {
    Round(amount * 100.0)
  }

  /** `{ donationId, donationType, ...metadata }` with `metadata = {}` when absent:
      the caller's entries win over the two built-in keys. */
  function MergeMetadata(donationId: string, donationType: DonationType, extra: Option<map<string, string>>)
    : (m: map<string, string>)
    ensures m.Keys == {"donationId", "donationType"} + (if extra.Some? then extra.value.Keys else {})
    ensures extra.Some? ==> forall k | k in extra.value :: m[k] == extra.value[k]
    ensures extra.None? || "donationId" !in extra.value ==> m["donationId"] == donationId
    ensures extra.None? || "donationType" !in extra.value ==> m["donationType"] == DonationTypeText(donationType)
  {
    var builtIn := map["donationId" := donationId, "donationType" := DonationTypeText(donationType)];
    if extra.Some? then builtIn + extra.value else builtIn
  }

  /** The request `createStripePaymentIntent` sends. */
  function BuildPaymentIntentRequest(p: PaymentIntentParams): (r: PaymentIntentRequest)
    ensures r.amount as real - 0.5 <= p.amount * 100.0 < r.amount as real + 0.5
    ensures r.currency == "usd" && r.receiptEmail == p.donorEmail && r.automaticPaymentMethods
    ensures r.metadata == MergeMetadata(p.donationId, p.donationType, p.metadata)
  {
    PaymentIntentRequest(
      amount := ToCents(p.amount),
      currency := "usd",
      receiptEmail := p.donorEmail,
      metadata := MergeMetadata(p.donationId, p.donationType, p.metadata),
      automaticPaymentMethods := true)
  }

  /** `createStripePaymentIntent`: the request sent and the provider's answer,
      handed back as is. Monthly donations take the same path as one-time
      ones: no subscription is created. */
  function CreateStripePaymentIntent(p: PaymentIntentParams, create: Provider)
    : (r: (PaymentIntentRequest, Outcome<PaymentIntent>))
    ensures r.0.amount as real - 0.5 <= p.amount * 100.0 < r.0.amount as real + 0.5
    ensures r.0.currency == "usd" && r.0.receiptEmail == p.donorEmail
    ensures r.0 == BuildPaymentIntentRequest(p) && r.1 == create(r.0)
  {
    var req := BuildPaymentIntentRequest(p);
    (req, create(req))
  }

  /** A monthly donation produces the same one-time request as a one-time
      donation, apart from the `donationType` metadata entry. */
  lemma MonthlyIsOneTimePayment(p: PaymentIntentParams)
    ensures var monthly := BuildPaymentIntentRequest(p.(donationType := Monthly));
      var oneTime := BuildPaymentIntentRequest(p.(donationType := OneTime));
      && monthly.(metadata := map[]) == oneTime.(metadata := map[])
      && monthly.metadata.Keys == oneTime.metadata.Keys
      && forall k | k in monthly.metadata && k != "donationType" :: monthly.metadata[k] == oneTime.metadata[k]
  {
  }

  /** Amounts the form validator accepts become 500 to 1,000,000 cents. */
  lemma ValidAmountCents(amount: real)
    requires 5.0 <= amount <= 10000.0
    ensures 500 <= ToCents(amount) <= 1000000
  {
  }

  /** Whole-cent amounts convert exactly. */
  lemma {:induction false} WholeCentsExact(cents: int)
    ensures ToCents(cents as real / 100.0) == cents
  {
    assert (cents as real / 100.0) * 100.0 == cents as real;
  }
}
