/**
 * The events collection and its repository
 * (infrastructure/database/repositories/EventRepository.ts), with the checkout
 * session request it sends to Stripe. The collection is a map from `_id` to
 * the stored record; `EventModel` stamps `updatedAt` on every update
 * (`timestamps: true`).
 */
module EventStore {
  import opened Wrappers
  import opened ObjectIds
  import opened Entities
  import opened Errors

  const EventNotFoundMessage := "Event not found"

  /** The fields an update may set: a `Partial<Event>` without `_id` and the timestamps. */
  datatype EventPatch = EventPatch(
    title: Option<string>,
    description: Option<string>,
    date: Option<Millis>,
    time: Option<string>,
    location: Option<string>,
    category: Option<string>,
    attendees: Option<int>,
    maxAttendees: Option<int>,
    price: Option<int>,
    status: Option<EventStatus>,
    judges: Option<seq<string>>,
    food: Option<string>,
    guests: Option<seq<string>>)

  const EmptyPatch := EventPatch(None, None, None, None, None, None, None, None, None, None, None, None, None)

  function Or<T>(o: Option<T>, default: T): T {
    if o.Some? then o.value else default
  }

  /** The record an update leaves behind: the patch's fields over the old ones, `updatedAt` stamped. */
  function Patched(e: Event, p: EventPatch, now: Millis): Event {
    Event(e.id, Or(p.title, e.title), Or(p.description, e.description), Or(p.date, e.date),
      Or(p.time, e.time), Or(p.location, e.location), Or(p.category, e.category),
      Or(p.attendees, e.attendees), Or(p.maxAttendees, e.maxAttendees), Or(p.price, e.price),
      Or(p.status, e.status), Or(p.judges, e.judges), Or(p.food, e.food), Or(p.guests, e.guests),
      e.createdAt, now)
  }

  /** A patch that names no field changes nothing but the update stamp. */
  lemma EmptyPatchOnlyStamps(e: Event, now: Millis)
    ensures Patched(e, EmptyPatch, now) == e.(updatedAt := now)
  {
  }

  /** `$inc: { attendees: 1 }`, with the update's timestamp. */
  function Bumped(e: Event, now: Millis): Event {
    e.(attendees := e.attendees + 1, updatedAt := now)
  }

  /** A required string field of the schema is empty, which Mongoose's validator rejects. */
  predicate MissingRequired(e: Event) {
    e.title == "" || e.description == "" || e.time == "" || e.location == "" || e.category == ""
  }

  /** `create(event)`: validate, reject a taken `_id`, else insert and return the same record. */
  function CreateEffect(events: map<ObjectId, Event>, e: Event): (r: (Result<Event, Error>, map<ObjectId, Event>))
    ensures r.0.Success? <==> !MissingRequired(e) && e.id !in events
    ensures r.0.Success? ==> r.0.value == e && r.1 == events[e.id := e]
    ensures r.0.Failure? ==> r.1 == events
  {
    if MissingRequired(e) then (Failure(PlainError(ValidationFailedMessage)), events)
    else if e.id in events then (Failure(PlainError(DuplicateKeyMessage)), events)
    else (Success(e), events[e.id := e])
  }

  /** `update(id, patch)`: the updated record, or null and no change for an unknown id. */
  function UpdateEffect(events: map<ObjectId, Event>, id: ObjectId, p: EventPatch, now: Millis)
    : (r: (Option<Event>, map<ObjectId, Event>))
    ensures r.0.None? <==> id !in events
    ensures r.0.None? ==> r.1 == events
    ensures r.0.Some? ==> r.0.value == Patched(events[id], p, now) && r.1 == events[id := r.0.value]
  {
    if id in events then
      var e := Patched(events[id], p, now);
      (Some(e), events[id := e])
    else (None, events)
  }

  /** `incrementAttendees(id)`: the incremented record, or null and no change for an unknown id. */
  function IncrementEffect(events: map<ObjectId, Event>, id: ObjectId, now: Millis)
    : (r: (Option<Event>, map<ObjectId, Event>))
    ensures r.0.None? <==> id !in events
    ensures r.0.None? ==> r.1 == events
    ensures r.0.Some? ==> r.0.value == Bumped(events[id], now) && r.1 == events[id := r.0.value]
  {
    if id in events then
      var e := Bumped(events[id], now);
      (Some(e), events[id := e])
    else (None, events)
  }

  /** The increment raises `attendees` by one and changes no other event and no field but the stamp. */
  lemma IncrementChangesOnlyAttendees(events: map<ObjectId, Event>, id: ObjectId, now: Millis)
    requires id in events
    ensures var after := IncrementEffect(events, id, now).1;
      && after.Keys == events.Keys
      && after[id].attendees == events[id].attendees + 1
      && after[id] == events[id].(attendees := after[id].attendees, updatedAt := now)
      && forall k :: k in events && k != id ==> after[k] == events[k]
  {
  }

  /** `k` increments of one event, as `k` bookings apply them. */
  function IncrementTimes(events: map<ObjectId, Event>, id: ObjectId, now: Millis, k: nat): (r: map<ObjectId, Event>)
    ensures r.Keys == events.Keys
  {
    if k == 0 then events else IncrementEffect(IncrementTimes(events, id, now, k - 1), id, now).1
  }

  /** Increments accumulate: `k` of them raise `attendees` by exactly `k`, capacity notwithstanding. */
  lemma {:induction false} IncrementTimesAdds(events: map<ObjectId, Event>, id: ObjectId, now: Millis, k: nat)
    requires id in events
    ensures var after := IncrementTimes(events, id, now, k);
      && id in after && after.Keys == events.Keys
      && after[id].attendees == events[id].attendees + k
      && after[id].maxAttendees == events[id].maxAttendees
  {
    if k > 0 {
      IncrementTimesAdds(events, id, now, k - 1);
    }
  }

  /** Nothing bounds the count: enough increments always push `attendees` past `maxAttendees`. */
  lemma IncrementsOverflowCapacity(events: map<ObjectId, Event>, id: ObjectId, now: Millis)
    requires id in events
    ensures var k := if events[id].attendees <= events[id].maxAttendees
                     then events[id].maxAttendees - events[id].attendees + 1 else 0;
      IncrementTimes(events, id, now, k)[id].attendees > events[id].maxAttendees
  {
    var k := if events[id].attendees <= events[id].maxAttendees
             then events[id].maxAttendees - events[id].attendees + 1 else 0;
    IncrementTimesAdds(events, id, now, k);
  }

  /** `delete(id)`: a string id that is no ObjectId is a CastError; else true iff a record was removed. */
  function DeleteEffect(events: map<ObjectId, Event>, id: string): (r: (Result<bool, Error>, map<ObjectId, Event>))
    ensures Parse(id).None? ==> r == (Failure(PlainError(CastErrorMessage(id, "Event"))), events)
    ensures Parse(id).Some? ==> r.0 == Success(Parse(id).value in events)
    ensures Parse(id).Some? ==> r.1 == events - {Parse(id).value} && Parse(id).value !in r.1
  {
    match Parse(id)
    case None => (Failure(PlainError(CastErrorMessage(id, "Event"))), events)
    case Some(oid) => (Success(oid in events), events - {oid})
  }

  /** A checkout line item (`price_data` and `quantity`). */
  datatype LineItem = LineItem(currency: string, productName: string, unitAmount: int, quantity: int)

  /** The argument of `stripe.checkout.sessions.create`. */
  datatype SessionRequest = SessionRequest(
    paymentMethodTypes: seq<string>,
    lineItems: seq<LineItem>,
    mode: string,
    successUrl: string,
    cancelUrl: string,
    metadata: map<string, string>)

  const SuccessUrl := "http://localhost:5173/success?session_id={CHECKOUT_SESSION_ID}"
  const CancelUrl := "http://localhost:5173/cancel"

  /** The session request for one seat of `e`, correlated with the event and buyer ids. */
  function CheckoutRequest(e: Event, eventId: string, userId: string): SessionRequest {
    SessionRequest(["card"], [LineItem("usd", e.title, e.price * 100, 1)], "payment",
      SuccessUrl, CancelUrl, map["eventId" := eventId, "userId" := userId])
  }

  /** One line item, one seat, in US cents, and exactly the two correlation ids as metadata. */
  lemma CheckoutRequestShape(e: Event, eventId: string, userId: string)
    ensures var req := CheckoutRequest(e, eventId, userId);
      && |req.lineItems| == 1
      && req.lineItems[0].quantity == 1
      && req.lineItems[0].currency == "usd"
      && req.lineItems[0].unitAmount == e.price * 100
      && req.mode == "payment"
      && req.metadata.Keys == {"eventId", "userId"}
      && req.metadata["eventId"] == eventId && req.metadata["userId"] == userId
  {
  }

  /**
   * `createCheckoutSession`'s outcome and the session requests it sends: a malformed
   * id is a CastError and an unknown event "Event not found", both before any
   * request; otherwise exactly one request, and Stripe's answer decides the outcome.
   */
  function CheckoutEffect(events: map<ObjectId, Event>, eventId: string, userId: string,
                          respond: SessionRequest -> Result<string, string>)
    : (r: (Result<string, Error>, seq<SessionRequest>))
    ensures Parse(eventId).None? ==> r == (Failure(PlainError(CastErrorMessage(eventId, "Event"))), [])
    ensures Parse(eventId).Some? && Parse(eventId).value !in events ==>
      r == (Failure(PlainError(EventNotFoundMessage)), [])
    ensures r.1 != [] <==> Parse(eventId).Some? && Parse(eventId).value in events
    ensures r.1 != [] ==>
      && r.1 == [CheckoutRequest(events[Parse(eventId).value], eventId, userId)]
      && (r.0.Success? <==> respond(r.1[0]).Success?)
      && (r.0.Success? ==> r.0.value == respond(r.1[0]).value)
    ensures r.0.Failure? ==> r.0.error.PlainError?
  {
    match Parse(eventId)
    case None => (Failure(PlainError(CastErrorMessage(eventId, "Event"))), [])
    case Some(oid) =>
      if oid !in events then (Failure(PlainError(EventNotFoundMessage)), [])
      else
        var req := CheckoutRequest(events[oid], eventId, userId);
        match respond(req)
        case Success(sessionId) => (Success(sessionId), [req])
        case Failure(m) => (Failure(PlainError(m)), [req])
  }

  /** The Stripe checkout API: every request is recorded; `respond` gives the session id or an error. */
  class StripeCheckout {
    var requests: seq<SessionRequest>
    const respond: SessionRequest -> Result<string, string>

    constructor (respond: SessionRequest -> Result<string, string>)
      ensures requests == [] && this.respond == respond
    {
      requests := [];
      this.respond := respond;
    }

    method Create(req: SessionRequest) returns (r: Result<string, string>)
      modifies this
      ensures requests == old(requests) + [req] && r == respond(req)
    {
      requests := requests + [req];
      r := respond(req);
    }
  }

  class EventRepository {
    var events: map<ObjectId, Event>

    /** Every record is filed under its own `_id`. */
    ghost predicate Valid()
      reads this
    {
      forall id :: id in events ==> events[id].id == id
    }

    constructor ()
      ensures Valid() && events == map[]
    {
      events := map[];
    }

    method Create(e: Event) returns (r: Result<Event, Error>)
      requires Valid()
      modifies this
      ensures Valid()
      ensures (r, events) == CreateEffect(old(events), e)
    {
      if MissingRequired(e) {
        r := Failure(PlainError(ValidationFailedMessage));
      } else if e.id in events {
        r := Failure(PlainError(DuplicateKeyMessage));
      } else {
        events := events[e.id := e];
        r := Success(e);
      }
    }

    function FindById(id: ObjectId): (r: Option<Event>)
      requires Valid()
      reads this
      ensures r.Some? <==> id in events
      ensures r.Some? ==> r.value == events[id] && r.value.id == id
    {
      if id in events then Some(events[id]) else None
    }

    method Update(id: ObjectId, p: EventPatch, now: Millis) returns (r: Option<Event>)
      requires Valid()
      modifies this
      ensures Valid()
      ensures (r, events) == UpdateEffect(old(events), id, p, now)
    {
      if id in events {
        var e := Patched(events[id], p, now);
        events := events[id := e];
        r := Some(e);
      } else {
        r := None;
      }
    }

    method Delete(id: string) returns (r: Result<bool, Error>)
      requires Valid()
      modifies this
      ensures Valid()
      ensures (r, events) == DeleteEffect(old(events), id)
    {
      var oid := Parse(id);
      if oid.None? {
        r := Failure(PlainError(CastErrorMessage(id, "Event")));
      } else {
        r := Success(oid.value in events);
        events := events - {oid.value};
      }
    }

    method IncrementAttendees(id: ObjectId, now: Millis) returns (r: Option<Event>)
      requires Valid()
      modifies this
      ensures Valid()
      ensures (r, events) == IncrementEffect(old(events), id, now)
    {
      if id in events {
        var e := Bumped(events[id], now);
        events := events[id := e];
        r := Some(e);
      } else {
        r := None;
      }
    }

    /** `createCheckoutSession(eventId, userId)`: the session id or the error, with the request sent to Stripe. */
    method CreateCheckoutSession(eventId: string, userId: string, stripe: StripeCheckout) returns (r: Result<string, Error>)
      requires Valid()
      modifies stripe
      ensures var (result, sent) := CheckoutEffect(events, eventId, userId, stripe.respond);
        r == result && stripe.requests == old(stripe.requests) + sent
    {
      var oid := Parse(eventId);
      if oid.None? {
        return Failure(PlainError(CastErrorMessage(eventId, "Event")));
      }
      var found := FindById(oid.value);
      if found.None? {
        return Failure(PlainError(EventNotFoundMessage));
      }
      var session := stripe.Create(CheckoutRequest(found.value, eventId, userId));
      match session
      case Success(sessionId) => r := Success(sessionId);
      case Failure(m) => r := Failure(PlainError(m));
    }
  }
}
