/** The donation intake endpoint (src/app/api/donations/route.ts): validate
    the posted form, sanitise it, ask the payment provider for an intent,
    record the donation as pending (or as failed when the provider or the
    store throws) and answer. The request body, the clock, the random id
    suffix, the provider and the store are parameters. */
module DonationsRoute {
  import opened Text
  import opened Js
  import opened Http
  import opened DonationValidation
  import opened Stripe

  datatype DonationStatus = Pending | Failed | Completed

  /** What `saveDonation` is handed: the sanitised form plus bookkeeping. */
  datatype DonationRecord = DonationRecord(
    form: DonationFormData,
    id: string,
    status: DonationStatus,
    paymentIntentId: Option<string>,
    errorMessage: Option<string>,
    createdAt: nat,
    updatedAt: nat)

  /** The store: `saveDonation`, which may throw. */
  type Store = DonationRecord -> Outcome<()>

  /** The calls the endpoint makes, in order. */
  datatype Effect = ProviderCall(request: PaymentIntentRequest) | StoreCall(record: DonationRecord)

  /** The JSON bodies the endpoint answers with. */
  datatype PostBody =
    | ValidationFailed(error: string, details: ValidationErrors)
    | Created(donationId: string, clientSecret: Option<string>, paymentIntentId: string)
    | ErrorBody(error: string)

  datatype PostResult = PostResult(response: Response<PostBody>, effects: seq<Effect>)

  const ValidationFailedMessage := "Validation failed"
  const PaymentFailedMessage := "Payment processing failed. Please try again or contact support."
  const InternalErrorMessage := "Internal server error. Please try again later."
  const DefaultFailureReason := "Payment processing failed"

  /** `don_${Date.now()}_${suffix}`, the suffix standing for the random
      base-36 text. */
  function DonationId(now: nat, suffix: string): (id: string)
    ensures |id| == 5 + |DecimalString(now)| + |suffix|
    ensures StartsWith(id, "don_")
    ensures id[4..4 + |DecimalString(now)|] == DecimalString(now)
    ensures id[4 + |DecimalString(now)|] == '_'
    ensures id[|id| - |suffix|..] == suffix
  {
    "don_" + DecimalString(now) + "_" + suffix
  }

  /** The metadata the intake adds: donor name, the two flags as text, and the
      dedication fields for dedicated gifts only. */
  function IntakeMetadata(s: DonationFormData): (m: map<string, string>)
    ensures "donorName" in m && "isAnonymous" in m && "dedicateGift" in m
    ensures m["donorName"] == s.firstName + " " + s.lastName
    ensures m["isAnonymous"] == BoolText(s.isAnonymous) && m["dedicateGift"] == BoolText(s.dedicateGift)
    ensures ("dedicationType" in m <==> s.dedicateGift) && ("dedicateName" in m <==> s.dedicateGift)
    ensures s.dedicateGift ==>
      m["dedicationType"] == DedicationTypeText(s.dedicationType) && m["dedicateName"] == s.dedicateName
    ensures m.Keys <= {"donorName", "isAnonymous", "dedicateGift", "dedicationType", "dedicateName"}
  {
    var base := map["donorName" := s.firstName + " " + s.lastName,
                    "isAnonymous" := BoolText(s.isAnonymous),
                    "dedicateGift" := BoolText(s.dedicateGift)];
    if s.dedicateGift then
      base + map["dedicationType" := DedicationTypeText(s.dedicationType), "dedicateName" := s.dedicateName]
    else base
  }

  /** The provider request for a sanitised, validated form. */
  function IntakeRequest(s: DonationFormData, id: string, amount: real): (r: PaymentIntentRequest)
    ensures "donationId" in r.metadata && "donationType" in r.metadata
    ensures IntakeMetadata(s).Keys <= r.metadata.Keys
    ensures r.metadata["donationId"] == id
    ensures r.metadata["donationType"] == DonationTypeText(s.donationType)
    ensures r.receiptEmail == s.email && r.currency == "usd"
    ensures r.amount as real - 0.5 <= amount * 100.0 < r.amount as real + 0.5
    ensures forall k | k in IntakeMetadata(s) :: r.metadata[k] == IntakeMetadata(s)[k]
  {
    var m := IntakeMetadata(s);
    BuildPaymentIntentRequest(PaymentIntentParams(amount, s.donationType, s.email, id, Some(m)))
  }

  /** The record saved once the provider has answered. */
  function PendingRecord(s: DonationFormData, id: string, intent: PaymentIntent, now: nat): (rec: DonationRecord)
    ensures rec.form == s && rec.id == id && rec.status == Pending
    ensures rec.paymentIntentId == Some(intent.id) && rec.errorMessage.None?
  {
    DonationRecord(s, id, Pending, Some(intent.id), None, now, now)
  }

  /** The message kept for a payment failure: the `Error`'s message, or a
      fixed text for any other thrown value. */
  function FailureReason(e: Thrown): (msg: string)
    ensures e.ErrorObject? ==> msg == e.message
    ensures !e.ErrorObject? ==> msg == DefaultFailureReason
  {
    match e
    case ErrorObject(m) => m
    case _ => DefaultFailureReason
  }

  /** The record saved when the provider or the pending save threw. */
  function FailedRecord(s: DonationFormData, id: string, e: Thrown, now: nat): (rec: DonationRecord)
    ensures rec.form == s && rec.id == id && rec.status == Failed
    ensures rec.paymentIntentId.None? && rec.errorMessage == Some(FailureReason(e))
  {
    DonationRecord(s, id, Failed, None, Some(FailureReason(e)), now, now)
  }

  /** The inner `catch`: save a failed record, then answer 500 with a fixed
      text; if that save throws too, the outer `catch` answers. */
  function RecordFailure(s: DonationFormData, id: string, e: Thrown, now: nat, store: Store, before: seq<Effect>)
    : (r: PostResult)
    ensures r.effects == before + [StoreCall(FailedRecord(s, id, e, now))]
    ensures r.response.status == 500
    ensures r.response.body == ErrorBody(
      if store(FailedRecord(s, id, e, now)).Returned? then PaymentFailedMessage else InternalErrorMessage)
  {
    var failed := FailedRecord(s, id, e, now);
    var effects := before + [StoreCall(failed)];
    match store(failed)
    case Returned(_) => PostResult(Response(500, ErrorBody(PaymentFailedMessage)), effects)
    case Threw(_) => PostResult(Response(500, ErrorBody(InternalErrorMessage)), effects)
  }

  /** The inner `try` of `POST`, for a validated, sanitised form `s` whose
      amount is `amount` dollars: call the provider, save the pending record,
      answer with the client secret; on a throw, record the failure. */
  function ChargeAndRecord(s: DonationFormData, amount: real, id: string, now: nat, provider: Provider, store: Store)
    : (r: PostResult)
    // The provider is called first and once; every later call saves a record
    // of this donation.
    ensures |r.effects| >= 2 && r.effects[0] == ProviderCall(IntakeRequest(s, id, amount))
    ensures forall i | 1 <= i < |r.effects| ::
      r.effects[i].StoreCall? && r.effects[i].record.id == id && r.effects[i].record.form == s
    // 200 exactly when the provider answered and the pending record was saved,
    // and then with that intent.
    ensures r.response.status == 200 <==>
      var reply := provider(IntakeRequest(s, id, amount));
      reply.Returned? && store(PendingRecord(s, id, reply.value, now)).Returned?
    ensures r.response.status == 200 ==>
      var intent := provider(IntakeRequest(s, id, amount)).value;
      && r.response.body == Created(id, intent.clientSecret, intent.id)
      && r.effects == [ProviderCall(IntakeRequest(s, id, amount)), StoreCall(PendingRecord(s, id, intent, now))]
    // Otherwise 500 with a fixed text, after saving a failed record last.
    ensures r.response.status != 200 ==>
      && r.response.status == 500
      && r.effects[|r.effects| - 1].record.status == Failed
      && (r.response.body == ErrorBody(PaymentFailedMessage) || r.response.body == ErrorBody(InternalErrorMessage))
  {
    var request := IntakeRequest(s, id, amount);
    var called := [ProviderCall(request)];
    match provider(request)
    case Threw(e) => RecordFailure(s, id, e, now, store, called)
    case Returned(intent) =>
      var pending := PendingRecord(s, id, intent, now);
      match store(pending)
      case Threw(e) => RecordFailure(s, id, e, now, store, called + [StoreCall(pending)])
      case Returned(_) =>
        PostResult(Response(200, Created(id, intent.clientSecret, intent.id)), called + [StoreCall(pending)])
  }

  /** `POST /api/donations`. `body` is what `request.json()` produced (or
      threw), `now` the clock, `suffix` the random part of the id. */
  function Post(body: Outcome<DonationFormData>, now: nat, suffix: string, provider: Provider, store: Store)
    : (r: PostResult)
    // An unreadable body: 500, nothing called.
    ensures body.Threw? ==> r == PostResult(Response(500, ErrorBody(InternalErrorMessage)), [])
    // A form with any error: 400 with the errors, nothing called.
    ensures body.Returned? && ValidateDonationForm(body.value) != NoErrors ==>
      r == PostResult(Response(400, ValidationFailed(ValidationFailedMessage, ValidateDonationForm(body.value))), [])
    // A valid form is charged in its sanitised form, under a `don_` id.
    ensures body.Returned? && ValidateDonationForm(body.value) == NoErrors ==>
      var s := SanitizeFormData(body.value);
      && s.amount.Finite? && 5.0 <= s.amount.value <= 10000.0
      && r == ChargeAndRecord(s, s.amount.value, DonationId(now, suffix), now, provider, store)
    ensures r.response.status in {200, 400, 500}
    ensures r.effects == [] <==> body.Threw? || ValidateDonationForm(body.value) != NoErrors
  {
    match body
    case Threw(_) => PostResult(Response(500, ErrorBody(InternalErrorMessage)), [])
    case Returned(d) =>
      var errors := ValidateDonationForm(d);
      if errors != NoErrors then PostResult(Response(400, ValidationFailed(ValidationFailedMessage, errors)), [])
      else
        ValidFormAmountInRange(d);
        var s := SanitizeFormData(d);
        ChargeAndRecord(s, s.amount.value, DonationId(now, suffix), now, provider, store)
  }

  /** A provider failure leaves a failed record carrying the thrown message
      (or the fixed reason) and no intent id, under the same donation id, and
      the pending record is never saved. */
  lemma ProviderFailureRecordsFailure(s: DonationFormData, amount: real, id: string, now: nat, provider: Provider, store: Store)
    requires provider(IntakeRequest(s, id, amount)).Threw?
    ensures var r := ChargeAndRecord(s, amount, id, now, provider, store);
      var e := provider(IntakeRequest(s, id, amount)).thrown;
      && r.effects == [ProviderCall(IntakeRequest(s, id, amount)), StoreCall(FailedRecord(s, id, e, now))]
      && r.effects[1].record.errorMessage == Some(FailureReason(e))
      && r.effects[1].record.paymentIntentId.None?
      && r.response.status == 500
  {
  }

  /** When saving the pending record throws, a failed record follows it. */
  lemma PendingSaveFailureRecordsFailure(s: DonationFormData, amount: real, id: string, now: nat, provider: Provider, store: Store)
    requires provider(IntakeRequest(s, id, amount)).Returned?
    requires store(PendingRecord(s, id, provider(IntakeRequest(s, id, amount)).value, now)).Threw?
    ensures var r := ChargeAndRecord(s, amount, id, now, provider, store);
      var intent := provider(IntakeRequest(s, id, amount)).value;
      var e := store(PendingRecord(s, id, intent, now)).thrown;
      && r.effects == [ProviderCall(IntakeRequest(s, id, amount)), StoreCall(PendingRecord(s, id, intent, now)),
                       StoreCall(FailedRecord(s, id, e, now))]
      && r.response.status == 500
  {
  }

  /** The JSON bodies of `GET /api/donations`. */
  datatype GetBody = DonationFound(id: string, status: DonationStatus) | GetError(error: string)

  const MissingIdMessage := "Donation ID is required"

  /** `GET /api/donations?id=...`: 400 without a (non-empty) id, otherwise a
      placeholder that echoes the id as completed, whatever is stored. */
  function Get(id: Option<string>): (r: Response<GetBody>)
    ensures id.None? || id.value == "" <==> r == Response(400, GetError(MissingIdMessage))
    ensures id.Some? && id.value != "" ==> r.status == 200 && r.body == DonationFound(id.value, Completed)
  {
    if id.None? || id.value == "" then Response(400, GetError(MissingIdMessage))
    else Response(200, DonationFound(id.value, Completed))
  }
}
