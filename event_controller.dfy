/**
 * The two payment entry points of presentation/controllers/EventController.ts.
 * `createCheckoutSession` takes the event id from the body and the buyer from the
 * authenticated request; `stripeWebhook` verifies the raw body against the
 * `stripe-signature` header and the webhook secret before handing the event to
 * the fulfilment use case. A handler's effect on the client is an exchange: the
 * response it writes, if any, and the error it passes to `next`, if any.
 */
module EventControllers {
  import opened Wrappers
  import opened Errors
  import opened ObjectIds
  import opened Entities
  import EventStore
  import Booking

  const UserIdRequiredMessage := "User ID is required"
  const WebhookErrorPrefix := "Webhook Error: "
  const Ok: int := 200

  datatype Body =
    | SessionBody(success: bool, sessionId: string)
    | ReceivedBody(received: bool)
    | TextBody(text: string)

  datatype Reply = Reply(status: int, body: Body)

  /** What a handler does to the client: the reply it sends and the error it forwards to `next`. */
  datatype Exchange = Exchange(reply: Option<Reply>, forwarded: Option<Error>)

  /** `createCheckoutSession` after the use case: 200 with the session id, or the error forwarded. */
  function CheckoutExchange(result: Result<string, Error>): (x: Exchange)
    ensures x.reply.Some? <==> result.Success?
    ensures x.forwarded.Some? <==> result.Failure?
    ensures result.Success? ==> x.reply.value == Reply(Ok, SessionBody(true, result.value))
    ensures result.Failure? ==> x.forwarded.value == result.error
  {
    match result
    case Success(sessionId) => Exchange(Some(Reply(Ok, SessionBody(true, sessionId))), None)
    case Failure(e) => Exchange(None, Some(e))
  }

  /**
   * `stripeWebhook` after verification and fulfilment: 200 `{received: true}`, or
   * 400 "Webhook Error: <message>" with the error also forwarded to `next`.
   */
  function WebhookExchange(failure: Option<Error>): (x: Exchange)
    ensures x.reply.Some?
    ensures x.reply.value.status == Ok <==> failure.None?
    ensures x.reply.value.status == Ok || x.reply.value.status == BadRequest
    ensures x.forwarded == failure
    ensures failure.Some? ==> x.reply.value.body == TextBody(WebhookErrorPrefix + MessageOf(failure.value))
  {
    match failure
    case None => Exchange(Some(Reply(Ok, ReceivedBody(true))), None)
    case Some(e) => Exchange(Some(Reply(BadRequest, TextBody(WebhookErrorPrefix + MessageOf(e)))), Some(e))
  }

  /** A webhook is never answered with a server error, whatever fails. */
  lemma WebhookNeverServerError(failure: Option<Error>)
    ensures WebhookExchange(failure).reply.value.status != InternalServerError
  {
  }

  /** Every checkout failure reaches the error middleware as an unexpected error: 500 with the generic message. */
  lemma CheckoutFailureIsServerError(events: map<ObjectId, Event>, eventId: string, userId: string,
                                     respond: EventStore.SessionRequest -> Result<string, string>)
    requires EventStore.CheckoutEffect(events, eventId, userId, respond).0.Failure?
    ensures var x := CheckoutExchange(EventStore.CheckoutEffect(events, eventId, userId, respond).0);
      Respond(x.forwarded.value) == ErrorResponse(InternalServerError,
        ErrorBody(false, "ServerError", InternalServerErrorMessage, None))
  {
  }

  /** `EventController`, wired to the events store, Stripe, the fulfilment use case and signature verification. */
  class EventController {
    const events: EventStore.EventRepository
    const stripe: EventStore.StripeCheckout
    const webhook: Booking.StripeWebhookHandler
    /** `stripe.webhooks.constructEvent(body, signature, secret)`: the event, or the message it throws. */
    const constructEvent: (seq<bv8>, Option<string>, string) -> Result<Booking.StripeEvent, string>
    /** `process.env.STRIPE_WEBHOOK_SECRET`. */
    const webhookSecret: string

    constructor (events: EventStore.EventRepository, stripe: EventStore.StripeCheckout,
                 webhook: Booking.StripeWebhookHandler,
                 constructEvent: (seq<bv8>, Option<string>, string) -> Result<Booking.StripeEvent, string>,
                 webhookSecret: string)
      ensures this.events == events && this.stripe == stripe && this.webhook == webhook
      ensures this.constructEvent == constructEvent && this.webhookSecret == webhookSecret
    {
      this.events := events;
      this.stripe := stripe;
      this.webhook := webhook;
      this.constructEvent := constructEvent;
      this.webhookSecret := webhookSecret;
    }

    /**
     * `createCheckoutSession(req)`: without an authenticated user id it forwards
     * "User ID is required" and asks Stripe for nothing; otherwise the checkout for
     * `eventId` and that user decides the exchange.
     */
    method CreateCheckoutSession(eventId: string, userId: Option<string>) returns (x: Exchange)
      requires events.Valid()
      modifies stripe
      ensures userId.None? || userId.value == "" ==>
        x == Exchange(None, Some(PlainError(UserIdRequiredMessage))) && stripe.requests == old(stripe.requests)
      ensures userId.Some? && userId.value != "" ==>
        var (result, sent) := EventStore.CheckoutEffect(events.events, eventId, userId.value, stripe.respond);
        x == CheckoutExchange(result) && stripe.requests == old(stripe.requests) + sent
    {
      if userId.None? || userId.value == "" {
        return Exchange(None, Some(PlainError(UserIdRequiredMessage)));
      }
      var result := events.CreateCheckoutSession(eventId, userId.value, stripe);
      x := CheckoutExchange(result);
    }

    /**
     * `stripeWebhook(req)`: an event that fails verification is answered 400 and
     * forwarded, and nothing is fulfilled; a verified one is fulfilled, and the
     * fulfilment's error, if any, is answered the same way.
     */
    method StripeWebhook(rawBody: seq<bv8>, signature: Option<string>, now: Millis) returns (x: Exchange)
      requires webhook.Valid()
      modifies webhook.events, webhook.tickets, webhook.ids
      ensures webhook.Valid()
      ensures constructEvent(rawBody, signature, webhookSecret).Failure? ==>
        && x == WebhookExchange(Some(PlainError(constructEvent(rawBody, signature, webhookSecret).error)))
        && webhook.State() == old(webhook.State())
      ensures constructEvent(rawBody, signature, webhookSecret).Success? ==>
        var (outcome, after) := Booking.Fulfil(old(webhook.State()), constructEvent(rawBody, signature, webhookSecret).value,
          now, webhook.toDataUrl);
        && webhook.State() == after
        && x == WebhookExchange(if outcome.Fail? then Some(outcome.error) else None)
    {
      var verified := constructEvent(rawBody, signature, webhookSecret);
      if verified.Failure? {
        return WebhookExchange(Some(PlainError(verified.error)));
      }
      var outcome := webhook.Execute(verified.value, now);
      x := WebhookExchange(if outcome.Fail? then Some(outcome.error) else None);
    }
  }
}
