/**
 * The tickets collection and its repository
 * (infrastructure/database/repositories/TicketRepository.ts). Documents are kept
 * in natural (insertion) order; `TicketModel` declares `ticketId` and `qrCode`
 * required and unique, and `_id` is unique as in every collection.
 */
module TicketStore {
  import opened Wrappers
  import opened ObjectIds
  import opened Entities
  import opened Errors
  import opened Queries

  /** No two stored tickets share an `_id`, a `ticketId` or a `qrCode`. */
  ghost predicate UniqueKeys(docs: seq<Ticket>) {
    forall i, j :: 0 <= i < j < |docs| ==>
      docs[i].id != docs[j].id && docs[i].ticketId != docs[j].ticketId && docs[i].qrCode != docs[j].qrCode
  }

  /** `t` would break a unique index of `docs`. */
  predicate Conflicts(docs: seq<Ticket>, t: Ticket) {
    exists i :: 0 <= i < |docs| && (docs[i].id == t.id || docs[i].ticketId == t.ticketId || docs[i].qrCode == t.qrCode)
  }

  /** A required string field is empty, which Mongoose's validator rejects. */
  predicate MissingRequired(t: Ticket) {
    t.ticketId == "" || t.qrCode == ""
  }

  /** `create(ticket)`: validate, reject a duplicate key, else append and return the same ticket. */
  function CreateEffect(docs: seq<Ticket>, t: Ticket): (r: (Result<Ticket, Error>, seq<Ticket>))
    ensures r.0.Success? <==> !MissingRequired(t) && !Conflicts(docs, t)
    ensures r.0.Success? ==> r.0.value == t && r.1 == docs + [t]
    ensures r.0.Failure? ==> r.1 == docs
    ensures UniqueKeys(docs) ==> UniqueKeys(r.1)
  {
    if MissingRequired(t) then (Failure(PlainError(ValidationFailedMessage)), docs)
    else if Conflicts(docs, t) then (Failure(PlainError(DuplicateKeyMessage)), docs)
    else (Success(t), docs + [t])
  }

  /** A ticket with the latest purchase date (`sort({ purchaseDate: -1 })`, then the first; ties are in no set order). */
  function Latest(s: seq<Ticket>): (r: Option<Ticket>)
    ensures r.None? <==> s == []
    ensures r.Some? ==> r.value in s && forall t :: t in s ==> t.purchaseDate <= r.value.purchaseDate
  {
    if s == [] then None
    else match Latest(s[1..])
      case None => Some(s[0])
      case Some(later) => if later.purchaseDate > s[0].purchaseDate then Some(later) else Some(s[0])
  }

  class TicketRepository {
    var docs: seq<Ticket>

    ghost predicate Valid()
      reads this
    {
      UniqueKeys(docs)
    }

    constructor ()
      ensures Valid() && docs == []
    {
      docs := [];
    }

    method Create(t: Ticket) returns (r: Result<Ticket, Error>)
      requires Valid()
      modifies this
      ensures Valid()
      ensures (r, docs) == CreateEffect(old(docs), t)
    {
      if MissingRequired(t) {
        r := Failure(PlainError(ValidationFailedMessage));
      } else if Conflicts(docs, t) {
        r := Failure(PlainError(DuplicateKeyMessage));
      } else {
        docs := docs + [t];
        r := Success(t);
      }
    }

    /** `findByUserId`: exactly the stored tickets of the user, in order, with multiplicity. */
    function FindByUserId(userId: ObjectId): (r: seq<Ticket>)
      reads this
      ensures forall t :: t in r <==> t in docs && t.userId == userId
      ensures forall t :: multiset(r)[t] == if t.userId == userId then multiset(docs)[t] else 0
    {
      Filter(docs, (t: Ticket) => t.userId == userId)
    }

    /** `findByEventId`: exactly the stored tickets of the event, in order, with multiplicity. */
    function FindByEventId(eventId: ObjectId): (r: seq<Ticket>)
      reads this
      ensures forall t :: t in r <==> t in docs && t.eventId == eventId
      ensures forall t :: multiset(r)[t] == if t.eventId == eventId then multiset(docs)[t] else 0
    {
      Filter(docs, (t: Ticket) => t.eventId == eventId)
    }

    /** `findByTicketId`: the ticket with that `ticketId`, or null when there is none. */
    function FindByTicketId(ticketId: string): (r: Option<Ticket>)
      reads this
      ensures r.None? <==> forall t :: t in docs ==> t.ticketId != ticketId
      ensures r.Some? ==> r.value in docs && r.value.ticketId == ticketId
    {
      FirstMatch(docs, (t: Ticket) => t.ticketId == ticketId)
    }

    /** `getLatestTicketByUser`: one of the user's tickets with the latest purchase date, or null. */
    function GetLatestTicketByUser(userId: ObjectId): (r: Option<Ticket>)
      reads this
      ensures r.None? <==> forall t :: t in docs ==> t.userId != userId
      ensures r.Some? ==> r.value in docs && r.value.userId == userId
      ensures r.Some? ==> forall t :: t in docs && t.userId == userId ==> t.purchaseDate <= r.value.purchaseDate
    {
      var mine := FindByUserId(userId);
      assert mine == [] <==> forall t :: t in docs ==> t.userId != userId by {
        if mine != [] { assert mine[0] in mine; }
      }
      Latest(mine)
    }

    /** `getAllTickets`: every stored ticket, in collection order. */
    function GetAllTickets(): (r: seq<Ticket>)
      reads this
      ensures multiset(r) == multiset(docs)
    {
      docs
    }

    /** With unique ticket ids, a lookup by `ticketId` finds the one ticket that carries it. */
    lemma FindByTicketIdUnique(t: Ticket)
      requires Valid() && t in docs
      ensures FindByTicketId(t.ticketId) == Some(t)
    {
      var r := FindByTicketId(t.ticketId);
      var i :| 0 <= i < |docs| && docs[i] == r.value;
      var j :| 0 <= j < |docs| && docs[j] == t;
      assert i == j;
    }

    /** Every stored ticket is listed among its buyer's tickets and among its event's tickets. */
    lemma QueriesCoverStore(t: Ticket)
      ensures t in GetAllTickets() <==> t in FindByUserId(t.userId)
      ensures t in GetAllTickets() <==> t in FindByEventId(t.eventId)
    {
    }
  }
}
