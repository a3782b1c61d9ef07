/** The payment-provider webhook endpoint
    (src/app/api/webhooks/stripe/route.ts): read the raw body, insist on a
    signature header, let the provider verify the event, then log it by type
    and acknowledge. No branch touches any donation record. The body read,
    the header and the provider's verifier are parameters. */
module WebhookRoute {
  import opened Js
  import opened Http

  /** The verified event: its type and the id of the object it is about. */
  datatype Event = Event(eventType: string, objectId: string)

  /** `stripe.webhooks.constructEvent(body, signature, secret)`. */
  type Verifier = (string, string, string) -> Outcome<Event>

  /** What the `switch` does with a verified event: one log line per kind. */
  datatype Handling =
    | PaymentSucceeded(id: string)
    | PaymentFailed(id: string)
    | SubscriptionChanged(id: string)
    | SubscriptionCancelled(id: string)
    | Unhandled(eventType: string)

  /** The calls the endpoint makes, in order. */
  datatype Effect = VerifyCall(body: string, signature: string, secret: string) | Log(handling: Handling)

  datatype WebhookBody = Received | WebhookError(error: string)

  datatype WebhookResult = WebhookResult(response: Response<WebhookBody>, effects: seq<Effect>)

  const MissingSignatureMessage := "Missing stripe-signature header"
  const HandlerFailedMessage := "Webhook handler failed"

  /** The event types the `switch` has a branch for. */
  predicate IsHandledType(t: string) {
    t in {"payment_intent.succeeded", "payment_intent.payment_failed",
          "customer.subscription.created", "customer.subscription.updated",
          "customer.subscription.deleted"}
  }

  /** The `switch (event.type)`; the two subscription-change types share a
      branch, and every other type falls to `default`. */
  function Dispatch(event: Event): (h: Handling)
    ensures h.Unhandled? <==> !IsHandledType(event.eventType)
    ensures h.Unhandled? ==> h.eventType == event.eventType
    ensures !h.Unhandled? ==> h.id == event.objectId
  {
    match event.eventType
    case "payment_intent.succeeded" => PaymentSucceeded(event.objectId)
    case "payment_intent.payment_failed" => PaymentFailed(event.objectId)
    case "customer.subscription.created" => SubscriptionChanged(event.objectId)
    case "customer.subscription.updated" => SubscriptionChanged(event.objectId)
    case "customer.subscription.deleted" => SubscriptionCancelled(event.objectId)
    case _ => Unhandled(event.eventType)
  }

  /** Creation and update of a subscription are handled alike. */
  lemma SubscriptionCreatedIsUpdated(id: string)
    ensures Dispatch(Event("customer.subscription.created", id)) == Dispatch(Event("customer.subscription.updated", id))
    ensures Dispatch(Event("customer.subscription.created", id)) == SubscriptionChanged(id)
  {
  }

  /** `POST /api/webhooks/stripe`. `rawBody` is what `req.text()` produced (or
      threw), `signature` the `stripe-signature` header. */
  function Post(rawBody: Outcome<string>, signature: Option<string>, secret: string, construct: Verifier)
    : (r: WebhookResult)
    // The body is read first: a failed read is a 500, whatever the header.
    ensures rawBody.Threw? ==> r == WebhookResult(Response(500, WebhookError(HandlerFailedMessage)), [])
    // No (or an empty) signature: 400 and no verification attempt.
    ensures rawBody.Returned? && (signature.None? || signature.value == "") ==>
      r == WebhookResult(Response(400, WebhookError(MissingSignatureMessage)), [])
    // With a signature, verification runs once, on the raw text, first.
    ensures rawBody.Returned? && signature.Some? && signature.value != "" ==>
      |r.effects| >= 1 && r.effects[0] == VerifyCall(rawBody.value, signature.value, secret)
    // A rejected signature: 400 with the verifier's message.
    ensures rawBody.Returned? && signature.Some? && signature.value != "" ==>
      var verdict := construct(rawBody.value, signature.value, secret);
      && (verdict.Threw? && verdict.thrown.ErrorObject? ==>
            r.response == Response(400, WebhookError("Webhook Error: " + verdict.thrown.message)))
      && (verdict.Threw? && verdict.thrown.OtherValue? ==>
            r.response == Response(400, WebhookError("Webhook Error: undefined")))
      && (verdict.Threw? && verdict.thrown.Nullish? ==>
            r.response == Response(500, WebhookError(HandlerFailedMessage)))
      && (verdict.Threw? ==> |r.effects| == 1)
    // Every verified event, handled or not, is acknowledged after one log line.
    ensures r.response.status == 200 <==>
      rawBody.Returned? && signature.Some? && signature.value != ""
      && construct(rawBody.value, signature.value, secret).Returned?
    ensures r.response.status == 200 ==>
      && r.response.body == Received
      && r.effects == [VerifyCall(rawBody.value, signature.value, secret),
                       Log(Dispatch(construct(rawBody.value, signature.value, secret).value))]
  {
    match rawBody
    case Threw(_) => WebhookResult(Response(500, WebhookError(HandlerFailedMessage)), [])
    case Returned(body) =>
      if signature.None? || signature.value == "" then
        WebhookResult(Response(400, WebhookError(MissingSignatureMessage)), [])
      else
        var verify := VerifyCall(body, signature.value, secret);
        match construct(body, signature.value, secret)
        case Threw(ErrorObject(m)) => WebhookResult(Response(400, WebhookError("Webhook Error: " + m)), [verify])
        case Threw(OtherValue) => WebhookResult(Response(400, WebhookError("Webhook Error: undefined")), [verify])
        // Reading `.message` of null throws inside the catch; the outer catch answers.
        case Threw(Nullish) => WebhookResult(Response(500, WebhookError(HandlerFailedMessage)), [verify])
        case Returned(event) => WebhookResult(Response(200, Received), [verify, Log(Dispatch(event))])
  }
}
