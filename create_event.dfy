/**
 * Event creation (application/usecases/event/CreateEventUseCase.ts): the
 * request body is checked against `CreateEventSchema`; an accepted body becomes
 * a new `Event` with a fresh id, no attendees and status "upcoming", which is
 * then stored. A rejected body throws the ZodError before anything is stored.
 */
module CreateEvent {
  import opened Wrappers
  import opened ObjectIds
  import opened Entities
  import opened Errors
  import opened Zod
  import EventStore

  /**
   * The request body as the schema sees it. An absent string field is `None`;
   * `maxAttendees` and `price` hold `Number(value)`, with `None` for `NaN`
   * (what `Number` gives for an absent or non-numeric value).
   */
  datatype EventInput = EventInput(
    title: Option<string>,
    description: Option<string>,
    date: Option<string>,
    time: Option<string>,
    location: Option<string>,
    category: Option<string>,
    maxAttendees: Option<int>,
    price: Option<int>,
    judges: Option<seq<string>>,
    food: Option<string>,
    guests: Option<seq<string>>)

  /** The parsed body, defaults applied. */
  datatype ValidEvent = ValidEvent(
    title: string,
    description: string,
    date: string,
    time: string,
    location: string,
    category: string,
    maxAttendees: int,
    price: int,
    judges: seq<string>,
    food: string,
    guests: seq<string>)

  /** zod's `z.string().date()` and `z.string().datetime()` format checks. */
  datatype DateFormats = DateFormats(isDate: string -> bool, isDateTime: string -> bool)

  /** `z.string().min(1)`. */
  function NonEmptyIssues(v: Option<string>, key: string): (r: seq<Issue>)
    ensures r == [] <==> v.Some? && v.value != ""
  {
    match v
    case None => [Issue([Key(key)], RequiredMessage)]
    case Some(s) => Check(|s| >= 1, [Key(key)], TooShort(1))
  }

  /**
   * `z.union([z.string().date(), z.string().datetime()])`. A string that fails
   * both formats is reported with the first member's issue; only a value that no
   * member accepts as a string gives the union's own issue.
   */
  function DateIssues(v: Option<string>, formats: DateFormats): (r: seq<Issue>)
    ensures r == [] <==> v.Some? && (formats.isDate(v.value) || formats.isDateTime(v.value))
    ensures v.None? ==> r == [Issue([Key("date")], InvalidInputMessage)]
    ensures v.Some? && r != [] ==> r == [Issue([Key("date")], InvalidDateMessage)]
  {
    match v
    case None => [Issue([Key("date")], InvalidInputMessage)]
    case Some(s) => Check(formats.isDate(s) || formats.isDateTime(s), [Key("date")], InvalidDateMessage)
  }

  /** `z.preprocess(Number, z.number().positive())` (`nonnegative()` when `strict` is false). */
  function NumberIssues(v: Option<int>, key: string, strict: bool): (r: seq<Issue>)
    ensures r == [] <==> v.Some? && (if strict then v.value > 0 else v.value >= 0)
  {
    match v
    case None => [Issue([Key(key)], NotANumberMessage)]
    case Some(n) =>
      if strict then Check(n > 0, [Key(key)], NotPositiveMessage) else Check(n >= 0, [Key(key)], NegativeMessage)
  }

  /** Every issue `CreateEventSchema.parse` reports, in the schema's key order. */
  function Issues(input: EventInput, formats: DateFormats): seq<Issue> {
    NonEmptyIssues(input.title, "title")
      + NonEmptyIssues(input.description, "description")
      + DateIssues(input.date, formats)
      + NonEmptyIssues(input.time, "time")
      + NonEmptyIssues(input.location, "location")
      + NonEmptyIssues(input.category, "category")
      + NumberIssues(input.maxAttendees, "maxAttendees", true)
      + NumberIssues(input.price, "price", false)
  }

  /** What the schema demands, field by field. */
  predicate Acceptable(input: EventInput, formats: DateFormats) {
    && input.title.Some? && input.title.value != ""
    && input.description.Some? && input.description.value != ""
    && input.date.Some? && (formats.isDate(input.date.value) || formats.isDateTime(input.date.value))
    && input.time.Some? && input.time.value != ""
    && input.location.Some? && input.location.value != ""
    && input.category.Some? && input.category.value != ""
    && input.maxAttendees.Some? && input.maxAttendees.value > 0
    && input.price.Some? && input.price.value >= 0
  }

  function Or<T>(o: Option<T>, default: T): T {
    if o.Some? then o.value else default
  }

  /** `CreateEventSchema.parse(data)`: the parsed body, or every issue found. */
  function ParseEventInput(input: EventInput, formats: DateFormats): (r: Result<ValidEvent, seq<Issue>>)
    ensures r.Success? <==> Acceptable(input, formats)
    ensures r.Failure? ==> r.error == Issues(input, formats) && r.error != []
    ensures r.Success? ==>
      && r.value.maxAttendees > 0 && r.value.price >= 0 && r.value.title != "" && r.value.description != ""
      && r.value.time != "" && r.value.location != "" && r.value.category != ""
      && r.value.judges == Or(input.judges, []) && r.value.guests == Or(input.guests, [])
      && r.value.food == Or(input.food, "")
    ensures r.Success? ==> r.value == ValidEvent(input.title.value, input.description.value, input.date.value,
      input.time.value, input.location.value, input.category.value, input.maxAttendees.value, input.price.value,
      Or(input.judges, []), Or(input.food, ""), Or(input.guests, []))
  {
    var issues := Issues(input, formats);
    if issues != [] then Failure(issues)
    else
      Success(ValidEvent(input.title.value, input.description.value, input.date.value, input.time.value,
        input.location.value, input.category.value, input.maxAttendees.value, input.price.value,
        Or(input.judges, []), Or(input.food, ""), Or(input.guests, [])))
  }

  /** `new Event(...)` from a parsed body: fresh id, no attendees, "upcoming", both stamps `now`. */
  function NewEvent(v: ValidEvent, id: ObjectId, now: Millis, parseDate: string -> Millis): (e: Event)
    ensures e.id == id && e.attendees == 0 && e.status == Upcoming
    ensures e.createdAt == now && e.updatedAt == now && e.date == parseDate(v.date)
    ensures (e.title, e.description, e.time, e.location, e.category) == (v.title, v.description, v.time, v.location, v.category)
    ensures (e.maxAttendees, e.price, e.judges, e.food, e.guests) == (v.maxAttendees, v.price, v.judges, v.food, v.guests)
  {
    Event(id, v.title, v.description, parseDate(v.date), v.time, v.location, v.category, 0,
      v.maxAttendees, v.price, Upcoming, v.judges, v.food, v.guests, now, now)
  }

  /**
   * `execute(data)`: the outcome, the events after and the id source after. A
   * rejected body draws no id and stores nothing; an accepted one draws one id
   * and is stored unless that id is taken.
   */
  function CreateEventEffect(events: map<ObjectId, Event>, nextId: ObjectId, input: EventInput, now: Millis,
                             formats: DateFormats, parseDate: string -> Millis)
    : (r: (Result<Event, Error>, map<ObjectId, Event>, ObjectId))
    ensures !Acceptable(input, formats) ==> r == (Failure(ZodError(Issues(input, formats))), events, nextId)
    ensures Acceptable(input, formats) ==> r.2 == NextId(nextId) && (r.0.Success? <==> nextId !in events)
    ensures r.0.Success? ==>
      && r.0.value.id == nextId && r.0.value.attendees == 0 && r.0.value.status == Upcoming
      && r.0.value.attendees <= r.0.value.maxAttendees
      && r.1 == events[nextId := r.0.value]
      && r.0.value == NewEvent(ParseEventInput(input, formats).value, nextId, now, parseDate)
    ensures r.0.Failure? ==> r.1 == events
  {
    match ParseEventInput(input, formats)
    case Failure(issues) => (Failure(ZodError(issues)), events, nextId)
    case Success(v) =>
      var (created, after) := EventStore.CreateEffect(events, NewEvent(v, nextId, now, parseDate));
      (created, after, NextId(nextId))
  }

  /** `CreateEventUseCase`, wired to the events store, the id source and the date handling it uses. */
  class CreateEventUseCase {
    const repository: EventStore.EventRepository
    const ids: IdGenerator
    const formats: DateFormats
    /** `new Date(text)`. */
    const parseDate: string -> Millis

    constructor (repository: EventStore.EventRepository, ids: IdGenerator, formats: DateFormats, parseDate: string -> Millis)
      ensures this.repository == repository && this.ids == ids && this.formats == formats && this.parseDate == parseDate
    {
      this.repository := repository;
      this.ids := ids;
      this.formats := formats;
      this.parseDate := parseDate;
    }

    method Execute(input: EventInput, now: Millis) returns (r: Result<Event, Error>)
      requires repository.Valid()
      modifies repository, ids
      ensures repository.Valid()
      ensures (r, repository.events, ids.next)
        == CreateEventEffect(old(repository.events), old(ids.next), input, now, formats, parseDate)
    {
      var validated := ParseEventInput(input, formats);
      if validated.Failure? {
        return Failure(ZodError(validated.error));
      }
      var id := ids.Fresh();
      var e := NewEvent(validated.value, id, now, parseDate);
      r := repository.Create(e);
    }
  }
}
