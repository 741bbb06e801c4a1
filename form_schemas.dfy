/**
 * The front end's zod schemas (frontend/src/schema): `eventSchema` for the
 * event form, `registerSchema` for sign-up and `loginSchema` for sign-in. Each
 * is modelled as the list of issues it reports, in the order zod reports them,
 * with the messages the schemas spell out (typos included), and an acceptance
 * predicate the list is empty for. The forms show the first issue only.
 */
module FormSchemas {
  import opened Wrappers
  import opened Text
  import opened Zod

  // The messages the schemas declare, as written: the title's upper limit and
  // the name's lower limit say other numbers than the checks they belong to.
  const TitleTooShort := "Title must be at least 3 characters"
  const TitleTooLong := "Title cannot exceed 15 characters"
  const TitleBlank := "Title cannot be empty or spaces only"
  const CategoryRequired := "Category is required"
  const DescriptionTooShort := "Description must be at least 5 characters"
  const DescriptionTooLong := "Description cannot exceed 100 characters"
  const DescriptionBlank := "Description cannot be empty or spaces only"
  const DateRequired := "Date is required"
  const TimeRequired := "Time is required"
  const PriceNegative := "Price cannot be negative"
  const LocationTooShort := "Location must be at least 3 characters"
  const LocationBlank := "Location cannot be empty or spaces only"
  const MaxAttendeesTooLow := "Max Attendees must be at least 1"
  const AttendeesNegative := "Attendees cannot be negative"
  const JudgeEmpty := "Judge name cannot be empty"
  const GuestEmpty := "Guest name cannot be empty"
  const PasswordTooShort := "Password must be at least 8 characters"
  const PasswordNoUpper := "Password must contain at least one uppercase letter"
  const PasswordNoLower := "Password must contain at least one lowercase letter"
  const PasswordNoDigit := "Password must contain at least one number"
  const PasswordNoSpecial := "Password must contain at least one special character"
  const NameTooShort := "Name must be at least 3 characters"
  const NameTooLong := "Name cannot exceed 15 characters"
  const NameBlank := "Name cannot be empty or spaces only"
  const EmailInvalid := "Invalid email address"
  const EmailRequired := "Email is required"
  const ConfirmRequired := "Confirm Password is required"

  /** `issues[0].message`, the one the forms put in a toast; `None` when the value passed. */
  function FirstMessage(issues: seq<Issue>): (r: Option<string>)
    ensures r.None? <==> issues == []
  {
    if issues == [] then None else Some(issues[0].message)
  }

  /** `.refine((val) => val.trim().length > 0, message)`. */
  function NotBlankIssue(s: string, key: string, message: string): (r: seq<Issue>)
    ensures r == [] <==> !Blank(s)
  {
    TrimEmptyIffBlank(s);
    Check(|Trim(s)| > 0, [Key(key)], message)
  }

  /** `z.array(z.string().min(1, message))`: one issue per empty element, at its index. */
  function EmptyElementIssues(xs: seq<string>, key: string, message: string): (r: seq<Issue>)
    ensures r == [] <==> forall i :: 0 <= i < |xs| ==> xs[i] != ""
    ensures forall j :: 0 <= j < |r| ==>
      && r[j].message == message && |r[j].path| == 2 && r[j].path[0] == Key(key) && r[j].path[1].Index?
      && r[j].path[1].position < |xs| && xs[r[j].path[1].position] == ""
  {
    if xs == [] then []
    else
      var last := |xs| - 1;
      var init := EmptyElementIssues(xs[..last], key, message);
      assert forall i :: 0 <= i < last ==> xs[..last][i] == xs[i];
      init + Check(|xs[last]| >= 1, [Key(key), Index(last)], message)
  }

  // ----- eventSchema -----

  const EventStatuses: seq<string> := ["upcoming", "ongoing", "completed", "cancelled"]

  const InvalidStatusPrefix := "Invalid enum value. Expected 'upcoming' | 'ongoing' | 'completed' | 'cancelled', received '"

  /** zod's default message for a value outside `z.enum(EventStatuses)`. */
  function InvalidStatusMessage(received: string): string {
    InvalidStatusPrefix + received + "'"
  }

  /**
   * What the event form passes to `eventSchema.safeParse`: `price` and
   * `maxAttendees` are `Number(...)` of the text typed, `None` for `NaN`;
   * `attendees` is `None` when the form has none.
   */
  datatype EventForm = EventForm(
    id: Option<string>,
    title: string,
    category: string,
    description: string,
    date: string,
    time: string,
    price: Option<int>,
    location: string,
    maxAttendees: Option<int>,
    attendees: Option<int>,
    judges: seq<string>,
    guests: seq<string>,
    food: string,
    status: string)

  /** `z.number().min(bound, message)`; `NaN` is refused as not a number. */
  function NumberAtLeast(v: Option<int>, key: string, bound: int, message: string): (r: seq<Issue>)
    ensures r == [] <==> v.Some? && v.value >= bound
  {
    match v
    case None => [Issue([Key(key)], NotANumberMessage)]
    case Some(n) => Check(n >= bound, [Key(key)], message)
  }

  function TitleIssues(t: string): (r: seq<Issue>)
    ensures r == [] <==> 3 <= JsLength(t) <= 35 && !Blank(t)
  {
    Check(JsLength(t) >= 3, [Key("title")], TitleTooShort)
      + Check(JsLength(t) <= 35, [Key("title")], TitleTooLong)
      + NotBlankIssue(t, "title", TitleBlank)
  }

  function DescriptionIssues(d: string): (r: seq<Issue>)
    ensures r == [] <==> 5 <= JsLength(d) <= 100 && !Blank(d)
  {
    Check(JsLength(d) >= 5, [Key("description")], DescriptionTooShort)
      + Check(JsLength(d) <= 100, [Key("description")], DescriptionTooLong)
      + NotBlankIssue(d, "description", DescriptionBlank)
  }

  function LocationIssues(l: string): (r: seq<Issue>)
    ensures r == [] <==> JsLength(l) >= 3 && !Blank(l)
  {
    Check(JsLength(l) >= 3, [Key("location")], LocationTooShort)
      + NotBlankIssue(l, "location", LocationBlank)
  }

  /** `z.number().min(0).optional().default(0)`: an absent count is no issue. */
  function AttendeesIssues(a: Option<int>): (r: seq<Issue>)
    ensures r == [] <==> (a.Some? ==> a.value >= 0)
  {
    if a.Some? then Check(a.value >= 0, [Key("attendees")], AttendeesNegative) else []
  }

  function CategoryIssues(c: string): (r: seq<Issue>)
    ensures r == [] <==> c != ""
  {
    Check(|c| >= 1, [Key("category")], CategoryRequired)
  }

  function DateIssues(d: string): (r: seq<Issue>)
    ensures r == [] <==> d != ""
  {
    Check(|d| >= 1, [Key("date")], DateRequired)
  }

  function TimeIssues(t: string): (r: seq<Issue>)
    ensures r == [] <==> t != ""
  {
    Check(|t| >= 1, [Key("time")], TimeRequired)
  }

  function PriceIssues(p: Option<int>): (r: seq<Issue>)
    ensures r == [] <==> p.Some? && p.value >= 0
  {
    NumberAtLeast(p, "price", 0, PriceNegative)
  }

  function MaxAttendeesIssues(m: Option<int>): (r: seq<Issue>)
    ensures r == [] <==> m.Some? && m.value >= 1
  {
    NumberAtLeast(m, "maxAttendees", 1, MaxAttendeesTooLow)
  }

  function JudgesIssues(judges: seq<string>): (r: seq<Issue>)
    ensures r == [] <==> forall i :: 0 <= i < |judges| ==> judges[i] != ""
  {
    EmptyElementIssues(judges, "judges", JudgeEmpty)
  }

  function GuestsIssues(guests: seq<string>): (r: seq<Issue>)
    ensures r == [] <==> forall i :: 0 <= i < |guests| ==> guests[i] != ""
  {
    EmptyElementIssues(guests, "guests", GuestEmpty)
  }

  function StatusIssues(status: string): (r: seq<Issue>)
    ensures r == [] <==> status in EventStatuses
  {
    Check(status in EventStatuses, [Key("status")], InvalidStatusMessage(status))
  }

  /** Every issue of `eventSchema`, field by field in its key order. */
  function EventIssues(f: EventForm): seq<Issue> {
    TitleIssues(f.title) + CategoryIssues(f.category) + DescriptionIssues(f.description)
      + DateIssues(f.date) + TimeIssues(f.time) + PriceIssues(f.price) + LocationIssues(f.location)
      + MaxAttendeesIssues(f.maxAttendees) + AttendeesIssues(f.attendees)
      + JudgesIssues(f.judges) + GuestsIssues(f.guests) + StatusIssues(f.status)
  }

  /** The event form's rules, field by field. */
  predicate EventAcceptable(f: EventForm) {
    && 3 <= JsLength(f.title) <= 35 && !Blank(f.title)
    && f.category != ""
    && 5 <= JsLength(f.description) <= 100 && !Blank(f.description)
    && f.date != "" && f.time != ""
    && f.price.Some? && f.price.value >= 0
    && JsLength(f.location) >= 3 && !Blank(f.location)
    && f.maxAttendees.Some? && f.maxAttendees.value >= 1
    && (f.attendees.Some? ==> f.attendees.value >= 0)
    && (forall i :: 0 <= i < |f.judges| ==> f.judges[i] != "")
    && (forall i :: 0 <= i < |f.guests| ==> f.guests[i] != "")
    && f.status in EventStatuses
  }

  /** The issue list is empty exactly when every rule holds. */
  lemma EventIssuesIff(f: EventForm)
    ensures EventIssues(f) == [] <==> EventAcceptable(f)
  {
  }

  /** `eventSchema.safeParse(form)`: the form with `attendees` defaulted to 0, or every issue. */
  function ParseEventForm(f: EventForm): (r: Result<EventForm, seq<Issue>>)
    ensures r.Success? <==> EventAcceptable(f)
    ensures r.Failure? ==> r.error == EventIssues(f) && r.error != []
    ensures r.Success? ==> r.value == f.(attendees := Some(if f.attendees.Some? then f.attendees.value else 0))
    ensures r.Success? ==> r.value.attendees.value >= 0 && r.value.maxAttendees.value >= 1
  {
    var issues := EventIssues(f);
    EventIssuesIff(f);
    if issues != [] then Failure(issues)
    else Success(f.(attendees := Some(if f.attendees.Some? then f.attendees.value else 0)))
  }

  /** A title that breaks a rule is what the form reports first, whatever else is wrong. */
  lemma BadTitleReportedFirst(f: EventForm)
    requires !(3 <= JsLength(f.title) <= 35 && !Blank(f.title))
    ensures FirstMessage(EventIssues(f)) == FirstMessage(TitleIssues(f.title))
  {
    assert EventIssues(f)[0] == TitleIssues(f.title)[0];
  }

  // ----- password rules, shared by registerSchema and loginSchema -----

  /** At least 8 UTF-16 units with an upper-case letter, a lower-case letter, a digit and a special character. */
  predicate StrongPassword(p: string) {
    JsLength(p) >= 8 && HasUpper(p) && HasLower(p) && HasDigit(p) && HasSpecial(p)
  }

  /** The five password checks both schemas declare, in their order. */
  function PasswordIssues(p: string): (r: seq<Issue>)
    ensures r == [] <==> StrongPassword(p)
    ensures forall j :: 0 <= j < |r| ==> r[j].path == [Key("password")]
  {
    Check(JsLength(p) >= 8, [Key("password")], PasswordTooShort)
      + Check(HasUpper(p), [Key("password")], PasswordNoUpper)
      + Check(HasLower(p), [Key("password")], PasswordNoLower)
      + Check(HasDigit(p), [Key("password")], PasswordNoDigit)
      + Check(HasSpecial(p), [Key("password")], PasswordNoSpecial)
  }

  // ----- registerSchema -----

  datatype RegisterForm = RegisterForm(name: string, email: string, password: string, confirmPassword: string)

  const PasswordsDifferMessage := "Passwords do not match"

  function NameIssues(n: string): (r: seq<Issue>)
    ensures r == [] <==> 5 <= JsLength(n) <= 15 && !Blank(n)
  {
    Check(JsLength(n) >= 5, [Key("name")], NameTooShort)
      + Check(JsLength(n) <= 15, [Key("name")], NameTooLong)
      + NotBlankIssue(n, "name", NameBlank)
  }

  /**
   * Every issue of `registerSchema`: the fields in key order, then the
   * object-level refine, which zod runs even when a field has failed and which
   * reports the mismatch on `confirmPassword`.
   */
  function RegisterFormIssues(f: RegisterForm, isEmail: string -> bool): seq<Issue> {
    NameIssues(f.name)
      + Check(isEmail(f.email), [Key("email")], EmailInvalid)
      + Check(|f.email| >= 1, [Key("email")], EmailRequired)
      + PasswordIssues(f.password)
      + Check(|f.confirmPassword| >= 1, [Key("confirmPassword")], ConfirmRequired)
      + Check(f.password == f.confirmPassword, [Key("confirmPassword")], PasswordsDifferMessage)
  }

  predicate RegisterFormAcceptable(f: RegisterForm, isEmail: string -> bool) {
    && 5 <= JsLength(f.name) <= 15 && !Blank(f.name)
    && isEmail(f.email) && f.email != ""
    && StrongPassword(f.password)
    && f.confirmPassword != ""
    && f.password == f.confirmPassword
  }

  lemma RegisterFormIssuesIff(f: RegisterForm, isEmail: string -> bool)
    ensures RegisterFormIssues(f, isEmail) == [] <==> RegisterFormAcceptable(f, isEmail)
  {
  }

  /** A mismatch is reported on `confirmPassword`, after every field issue. */
  lemma MismatchReportedLast(f: RegisterForm, isEmail: string -> bool)
    requires f.password != f.confirmPassword
    ensures var issues := RegisterFormIssues(f, isEmail);
      issues != [] && issues[|issues| - 1] == Issue([Key("confirmPassword")], PasswordsDifferMessage)
  {
  }

  // ----- loginSchema -----

  datatype LoginForm = LoginForm(email: string, password: string)

  /** Every issue of `loginSchema`; unlike sign-up, emptiness is checked before the format. */
  function LoginFormIssues(f: LoginForm, isEmail: string -> bool): seq<Issue> {
    Check(|f.email| >= 1, [Key("email")], EmailRequired)
      + Check(isEmail(f.email), [Key("email")], EmailInvalid)
      + PasswordIssues(f.password)
  }

  predicate LoginFormAcceptable(f: LoginForm, isEmail: string -> bool) {
    f.email != "" && isEmail(f.email) && StrongPassword(f.password)
  }

  lemma LoginFormIssuesIff(f: LoginForm, isEmail: string -> bool)
    ensures LoginFormIssues(f, isEmail) == [] <==> LoginFormAcceptable(f, isEmail)
  {
  }

  /**
   * The message the sign-in page shows: `EmailRequired` for an empty
   * email, the format error for a malformed one, and otherwise the first
   * failing password rule, in the order declared.
   */
  lemma LoginMessage(f: LoginForm, isEmail: string -> bool)
    ensures f.email == "" ==> FirstMessage(LoginFormIssues(f, isEmail)) == Some(EmailRequired)
    ensures f.email != "" && !isEmail(f.email) ==>
      FirstMessage(LoginFormIssues(f, isEmail)) == Some(EmailInvalid)
    ensures f.email != "" && isEmail(f.email) ==>
      FirstMessage(LoginFormIssues(f, isEmail)) == FirstMessage(PasswordIssues(f.password))
  {
  }

  /** Whatever the sign-up form accepts, the sign-in form accepts for the same email and password. */
  lemma RegisteredCredentialsPassLogin(f: RegisterForm, isEmail: string -> bool)
    requires RegisterFormAcceptable(f, isEmail)
    ensures LoginFormAcceptable(LoginForm(f.email, f.password), isEmail)
  {
  }
}
