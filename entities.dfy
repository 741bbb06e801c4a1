/**
 * The domain records (domain/entities/Event.ts, Ticket.ts, User.ts) as they are
 * stored. Dates are milliseconds since the epoch; monetary amounts and counts
 * are integers.
 */
module Entities {
  import opened Wrappers
  import opened ObjectIds

  /** A `Date`, as milliseconds since the epoch. */
  type Millis = int

  datatype EventStatus = Upcoming | Ongoing | Completed | Cancelled

  /** The spelling of a status in the database and in forms. */
  function StatusName(s: EventStatus): string {
    match s
    case Upcoming => "upcoming"
    case Ongoing => "ongoing"
    case Completed => "completed"
    case Cancelled => "cancelled"
  }

  datatype Event = Event(
    id: ObjectId,
    title: string,
    description: string,
    date: Millis,
    time: string,
    location: string,
    category: string,
    attendees: int,
    maxAttendees: int,
    price: int,
    status: EventStatus,
    judges: seq<string>,
    food: string,
    guests: seq<string>,
    createdAt: Millis,
    updatedAt: Millis)

  datatype TicketStatus = Booked | Used

  /** A ticket holds plain ids of its event and buyer (no populated joins). */
  datatype Ticket = Ticket(
    id: ObjectId,
    ticketId: string,
    eventId: ObjectId,
    userId: ObjectId,
    status: TicketStatus,
    purchaseDate: Millis,
    qrCode: string)

  datatype Role = Admin | Attendee

  datatype User = User(
    id: ObjectId,
    email: string,
    name: string,
    role: Role,
    password: Option<string>,
    googleId: Option<string>,
    createdAt: Millis,
    updatedAt: Millis,
    isBlocked: bool)
}
