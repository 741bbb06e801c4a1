/**
 * Fulfilment of a paid checkout
 * (application/usecases/event/HandleStripeWebhookUseCase.ts). For a
 * `checkout.session.completed` event whose metadata carries both ids, the use
 * case raises the event's attendee count, mints a ticket id, renders the QR code
 * and stores one booked ticket, in that order; any other event is ignored. There
 * is no capacity check and no deduplication of redelivered events.
 */
module Booking {
  import opened Wrappers
  import opened ObjectIds
  import opened Entities
  import opened Errors
  import opened QrPayloads
  import EventStore
  import TicketStore

  const CheckoutCompleted := "checkout.session.completed"

  /** A verified Stripe event as the use case reads it: its type and the session's metadata. */
  datatype StripeEvent = StripeEvent(kind: string, metadata: map<string, string>)

  /** `session.metadata?.eventId` and `?.userId`, when both are present and non-empty. */
  function CorrelationIds(meta: map<string, string>): (r: Option<(string, string)>)
    ensures r.Some? <==> "eventId" in meta && "userId" in meta && meta["eventId"] != "" && meta["userId"] != ""
  {
    if "eventId" in meta && "userId" in meta && meta["eventId"] != "" && meta["userId"] != ""
    then Some((meta["eventId"], meta["userId"]))
    else None
  }

  /** The event is a completed checkout carrying both correlation ids. */
  predicate Handles(ev: StripeEvent) {
    ev.kind == CheckoutCompleted && CorrelationIds(ev.metadata).Some?
  }

  /** What the handler reads and changes: both collections and the id source. */
  datatype BookingState = BookingState(events: map<ObjectId, Event>, tickets: seq<Ticket>, nextId: ObjectId)

  /** The ticket a successful fulfilment appends. */
  predicate IsBookedTicket(t: Ticket, s: BookingState, eventId: string, userId: string, now: Millis,
                           toDataUrl: string -> Result<string, string>)
  {
    && t.status == Booked
    && Parse(eventId) == Some(t.eventId)
    && Parse(userId) == Some(t.userId)
    && t.ticketId == ToHexString(s.nextId)
    && t.id == NextId(s.nextId)
    && t.purchaseDate == now
    && toDataUrl(QrJson(QrPayload(t.ticketId, eventId, userId))) == Success(t.qrCode)
  }

  /**
   * The condition under which a handled event books a ticket: both ids are
   * ObjectIds, the QR code renders to a non-empty image, and no stored ticket
   * already holds the `_id`, the `ticketId` or the image the handler mints.
   */
  predicate Books(s: BookingState, ev: StripeEvent, now: Millis, toDataUrl: string -> Result<string, string>) {
    && Handles(ev)
    && var (eventId, userId) := CorrelationIds(ev.metadata).value;
    && Parse(eventId).Some? && Parse(userId).Some?
    && var image := toDataUrl(QrJson(QrPayload(ToHexString(s.nextId), eventId, userId)));
    && image.Success? && image.value != ""
    && forall t :: t in s.tickets ==>
         t.id != NextId(s.nextId) && t.ticketId != ToHexString(s.nextId) && t.qrCode != image.value
  }

  /**
   * `execute(event)`: the outcome (a thrown error or none) and the state after.
   * `toDataUrl` is `QRCode.toDataURL`; `now` is the clock. Each step that throws
   * leaves the effects of the steps before it in place.
   */
  function Fulfil(s: BookingState, ev: StripeEvent, now: Millis, toDataUrl: string -> Result<string, string>)
    : (r: (Outcome<Error>, BookingState))
    ensures !Handles(ev) ==> r == (Pass, s)
    ensures r.1.events.Keys == s.events.Keys
    ensures |s.tickets| <= |r.1.tickets| <= |s.tickets| + 1 && r.1.tickets[..|s.tickets|] == s.tickets
    ensures Handles(ev) && r.0.Pass? ==>
      var (eventId, userId) := CorrelationIds(ev.metadata).value;
      && Parse(eventId).Some?
      && r.1.events == EventStore.IncrementEffect(s.events, Parse(eventId).value, now).1
      && |r.1.tickets| == |s.tickets| + 1
      && IsBookedTicket(r.1.tickets[|s.tickets|], s, eventId, userId, now, toDataUrl)
    ensures r.0.Fail? ==> r.1.tickets == s.tickets
    ensures Handles(ev) ==> (r.0.Pass? <==> Books(s, ev, now, toDataUrl))
  {
    if ev.kind != CheckoutCompleted then (Pass, s)
    else match CorrelationIds(ev.metadata)
      case None => (Pass, s)
      case Some((eventId, userId)) =>
        match Parse(eventId)
        case None => (Fail(PlainError(InvalidObjectIdMessage)), s)
        case Some(eid) =>
          var events := EventStore.IncrementEffect(s.events, eid, now).1;
          var ticketId := ToHexString(s.nextId);
          match toDataUrl(QrJson(QrPayload(ticketId, eventId, userId)))
          case Failure(m) => (Fail(PlainError(m)), BookingState(events, s.tickets, NextId(s.nextId)))
          case Success(qr) =>
            var id := NextId(s.nextId);
            match Parse(userId)
            case None => (Fail(PlainError(InvalidObjectIdMessage)), BookingState(events, s.tickets, NextId(id)))
            case Some(uid) =>
              var t := Ticket(id, ticketId, eid, uid, Booked, now, qr);
              var (created, tickets) := TicketStore.CreateEffect(s.tickets, t);
              assert |ticketId| == HexWidth;
              assert created.Success? ==> tickets[..|s.tickets|] == s.tickets;
              (if created.Success? then Pass else Fail(created.error), BookingState(events, tickets, NextId(id)))
  }

  /** `HandleStripeWebhookUseCase`, with the repositories, the id source and the QR renderer it is wired to. */
  class StripeWebhookHandler {
    const events: EventStore.EventRepository
    const tickets: TicketStore.TicketRepository
    const ids: IdGenerator
    const toDataUrl: string -> Result<string, string>

    ghost predicate Valid()
      reads this, events, tickets
    {
      events.Valid() && tickets.Valid()
    }

    constructor (events: EventStore.EventRepository, tickets: TicketStore.TicketRepository, ids: IdGenerator,
                 toDataUrl: string -> Result<string, string>)
      ensures this.events == events && this.tickets == tickets && this.ids == ids && this.toDataUrl == toDataUrl
    {
      this.events := events;
      this.tickets := tickets;
      this.ids := ids;
      this.toDataUrl := toDataUrl;
    }

    ghost function State(): BookingState
      reads this, events, tickets, ids
    {
      BookingState(events.events, tickets.docs, ids.next)
    }

    method Execute(ev: StripeEvent, now: Millis) returns (r: Outcome<Error>)
      requires Valid()
      modifies events, tickets, ids
      ensures Valid()
      ensures (r, State()) == Fulfil(old(State()), ev, now, toDataUrl)
    {
      if ev.kind != CheckoutCompleted {
        return Pass;
      }
      var correlation := CorrelationIds(ev.metadata);
      if correlation.None? {
        return Pass;
      }
      var (eventId, userId) := correlation.value;
      var eid := Parse(eventId);
      if eid.None? {
        return Fail(PlainError(InvalidObjectIdMessage));
      }
      // The incremented record (or null) is not looked at.
      var incremented := events.IncrementAttendees(eid.value, now);
      var ticketOid := ids.Fresh();
      var ticketId := ToHexString(ticketOid);
      var qr := toDataUrl(QrJson(QrPayload(ticketId, eventId, userId)));
      if qr.Failure? {
        return Fail(PlainError(qr.error));
      }
      var id := ids.Fresh();
      var uid := Parse(userId);
      if uid.None? {
        return Fail(PlainError(InvalidObjectIdMessage));
      }
      var created := tickets.Create(Ticket(id, ticketId, eid.value, uid.value, Booked, now, qr.value));
      r := if created.Success? then Pass else Fail(created.error);
    }
  }

  /** The stored `ticketId` names a different ObjectId than the ticket's own `_id`. */
  lemma TicketIdIsNotStorageId(s: BookingState, ev: StripeEvent, now: Millis, toDataUrl: string -> Result<string, string>)
    requires Handles(ev)
    requires Fulfil(s, ev, now, toDataUrl).0.Pass?
    ensures var t := Fulfil(s, ev, now, toDataUrl).1.tickets[|s.tickets|];
      Parse(t.ticketId).Some? && Parse(t.ticketId).value != t.id
  {
    ParseToHexString(s.nextId);
  }

  /** The QR code renders a text that decodes to the stored ticket id and the two metadata ids. */
  lemma QrCarriesTicketAndIds(s: BookingState, ev: StripeEvent, now: Millis, toDataUrl: string -> Result<string, string>)
    requires Handles(ev)
    requires Fulfil(s, ev, now, toDataUrl).0.Pass?
    ensures var t := Fulfil(s, ev, now, toDataUrl).1.tickets[|s.tickets|];
      exists text ::
        && toDataUrl(text) == Success(t.qrCode)
        && DecodeQr(text) == Some(QrPayload(t.ticketId, ev.metadata["eventId"], ev.metadata["userId"]))
  {
    var t := Fulfil(s, ev, now, toDataUrl).1.tickets[|s.tickets|];
    var p := QrPayload(t.ticketId, ev.metadata["eventId"], ev.metadata["userId"]);
    DecodeQrJson(p);
    assert toDataUrl(QrJson(p)) == Success(t.qrCode);
  }

  /** The increment's result is ignored: a ticket is stored even when no event has that id. */
  lemma TicketWithoutEvent(s: BookingState, ev: StripeEvent, now: Millis, toDataUrl: string -> Result<string, string>)
    requires Books(s, ev, now, toDataUrl)
    requires Parse(ev.metadata["eventId"]).value !in s.events
    ensures Fulfil(s, ev, now, toDataUrl).0 == Pass
    ensures Fulfil(s, ev, now, toDataUrl).1.events == s.events
    ensures |Fulfil(s, ev, now, toDataUrl).1.tickets| == |s.tickets| + 1
  {
  }

  /** A bad `userId` is only detected after the increment: the count stays raised and no ticket is stored. */
  lemma BadUserIdAfterIncrement(s: BookingState, ev: StripeEvent, now: Millis, toDataUrl: string -> Result<string, string>)
    requires Handles(ev)
    requires Parse(ev.metadata["eventId"]).Some? && Parse(ev.metadata["userId"]).None?
    requires toDataUrl(QrJson(QrPayload(ToHexString(s.nextId), ev.metadata["eventId"], ev.metadata["userId"]))).Success?
    ensures Fulfil(s, ev, now, toDataUrl).0 == Fail(PlainError(InvalidObjectIdMessage))
    ensures Fulfil(s, ev, now, toDataUrl).1.events
      == EventStore.IncrementEffect(s.events, Parse(ev.metadata["eventId"]).value, now).1
    ensures Fulfil(s, ev, now, toDataUrl).1.tickets == s.tickets
  {
  }

  /**
   * Redelivery is not detected: handling the same completed checkout twice, with
   * a QR renderer that never repeats an image and an id source whose next draws
   * are unused, raises the count by two and stores two tickets for the same
   * event and user.
   */
  lemma RedeliveryBooksTwice(s: BookingState, ev: StripeEvent, now: Millis, toDataUrl: string -> Result<string, string>)
    requires Books(s, ev, now, toDataUrl)
    requires Books(s.(nextId := NextId(NextId(s.nextId))), ev, now, toDataUrl)
    requires Parse(ev.metadata["eventId"]).value in s.events
    requires forall x, y :: toDataUrl(x) == toDataUrl(y) ==> x == y
    ensures var once := Fulfil(s, ev, now, toDataUrl);
      var twice := Fulfil(once.1, ev, now, toDataUrl);
      var eid := Parse(ev.metadata["eventId"]).value;
      var n := |s.tickets|;
      && once.0 == Pass && twice.0 == Pass
      && twice.1.events[eid].attendees == s.events[eid].attendees + 2
      && |twice.1.tickets| == n + 2
      && twice.1.tickets[n].eventId == twice.1.tickets[n + 1].eventId == eid
      && twice.1.tickets[n].userId == twice.1.tickets[n + 1].userId
  {
    RedeliveryIsFresh(s, ev, now, toDataUrl);
  }

  /** The ticket the first delivery stores does not clash with the one a redelivery mints. */
  lemma RedeliveryIsFresh(s: BookingState, ev: StripeEvent, now: Millis, toDataUrl: string -> Result<string, string>)
    requires Books(s, ev, now, toDataUrl)
    requires Books(s.(nextId := NextId(NextId(s.nextId))), ev, now, toDataUrl)
    requires forall x, y :: toDataUrl(x) == toDataUrl(y) ==> x == y
    ensures Books(Fulfil(s, ev, now, toDataUrl).1, ev, now, toDataUrl)
  {
    var eventId, userId := ev.metadata["eventId"], ev.metadata["userId"];
    var s1 := Fulfil(s, ev, now, toDataUrl).1;
    var first := s1.tickets[|s.tickets|];
    assert s1.nextId == NextId(NextId(s.nextId));
    assert s1.tickets == s.tickets + [first];
    NextIdsDistinct(s.nextId);
    var ticketId := ToHexString(s1.nextId);
    ToHexStringInjective(s1.nextId, s.nextId);
    QrJsonInjective(QrPayload(ticketId, eventId, userId), QrPayload(first.ticketId, eventId, userId));
  }

  /** The metadata a checkout session is created with is read back as the same two ids. */
  lemma CheckoutMetadataRoundTrip(e: Event, eventId: string, userId: string)
    requires eventId != "" && userId != ""
    ensures CorrelationIds(EventStore.CheckoutRequest(e, eventId, userId).metadata) == Some((eventId, userId))
  {
  }
}
