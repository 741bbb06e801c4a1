/**
 * Registration by e-mailed one-time password
 * (application/usecases/user/RegisterUserUseCase.ts, VerifyOtpUseCase.ts,
 * ResendOtpUseCase.ts). Registering parks the details under a fresh six-digit
 * OTP and mails it; verifying the OTP creates the user with a hashed password
 * and drops the pending record; resending replaces the OTP. The OTP draw is a
 * choice in [100000, 999999]; hashing, e-mail delivery and the email-format
 * check are parameters.
 */
module Registration {
  import opened Wrappers
  import opened ObjectIds
  import opened Text
  import opened Entities
  import opened Errors
  import opened Zod
  import opened OtpStores
  import UserStore

  const UserExistsMessage := "User already exists"
  const OtpSentMessage := "OTP sent successfully"
  const OtpResentMessage := "OTP resent successfully"
  const InvalidOtpMessage := "Invalid or expired OTP"
  const NoDetailsForEmailMessage := "No user details found for this email"
  const InvalidEmailMessage := "Invalid email"
  const OtpSubject := "Your OTP for Registration"

  const MinOtp: nat := 100000
  const MaxOtp: nat := 999999

  /** The mail that carries a fresh OTP. */
  function RegistrationMessage(name: string, otp: string): string {
    "Hello " + name + ",\n\nYour OTP is: " + otp + "\nIt is valid for 5 minutes.\n\nThank you!"
  }

  /** The mail that carries a resent OTP. */
  function ResendMessage(name: string, otp: string): string {
    "Hello " + name + ",\n\nThis is your **resend OTP**: " + otp + "\nIt is valid for 5 minutes.\n\nThank you!"
  }

  datatype Mail = Mail(to: string, subject: string, html: string)

  /** `sendEmail`: every attempt is recorded; `failure` gives the message it throws, if any. */
  class Mailer {
    var attempts: seq<Mail>
    const failure: Mail -> Option<string>

    constructor (failure: Mail -> Option<string>)
      ensures attempts == [] && this.failure == failure
    {
      attempts := [];
      this.failure := failure;
    }

    method Send(m: Mail) returns (r: Outcome<Error>)
      modifies this
      ensures attempts == old(attempts) + [m]
      ensures r == SendOutcome(failure, m)
    {
      attempts := attempts + [m];
      r := SendOutcome(failure, m);
    }
  }

  function SendOutcome(failure: Mail -> Option<string>, m: Mail): Outcome<Error> {
    if failure(m).Some? then Fail(PlainError(failure(m).value)) else Pass
  }

  /** The body `RegisterUserSchema` checks; an absent field is `None`. */
  datatype RegisterInput = RegisterInput(email: Option<string>, password: Option<string>, name: Option<string>)

  /** One issue for an absent string, else the issue of its single check. */
  function StringIssue(v: Option<string>, key: string, ok: bool, message: string): (r: seq<Issue>)
    ensures r == [] <==> v.Some? && ok
  {
    if v.None? then [Issue([Key(key)], RequiredMessage)] else Check(ok, [Key(key)], message)
  }

  /** Every issue `RegisterUserSchema.parse` reports, in key order. */
  function RegisterIssues(input: RegisterInput, isEmail: string -> bool): seq<Issue> {
    StringIssue(input.email, "email", input.email.Some? && isEmail(input.email.value), InvalidEmailMessage)
      + StringIssue(input.password, "password", input.password.Some? && JsLength(input.password.value) >= 6, TooShort(6))
      + StringIssue(input.name, "name", input.name.Some? && |input.name.value| >= 1, TooShort(1))
  }

  /** An email the format check accepts, a password of at least 6 UTF-16 units and a non-empty name. */
  predicate RegisterAcceptable(input: RegisterInput, isEmail: string -> bool) {
    && input.email.Some? && isEmail(input.email.value)
    && input.password.Some? && JsLength(input.password.value) >= 6
    && input.name.Some? && |input.name.value| >= 1
  }

  lemma RegisterIssuesIff(input: RegisterInput, isEmail: string -> bool)
    ensures RegisterIssues(input, isEmail) == [] <==> RegisterAcceptable(input, isEmail)
  {
  }

  /** What registration reads and writes besides the users: the pending records and the mail sent. */
  datatype Pending = Pending(records: map<string, OtpRecord>, mails: seq<Mail>)

  /**
   * `RegisterUserUseCase.execute(data)` when the draw gives `n`: the outcome and
   * the pending records and mails after. Every failure is rethrown as an
   * AppError with status 400.
   */
  function RegisterEffect(users: seq<User>, p: Pending, input: RegisterInput, now: Millis, n: nat,
                          isEmail: string -> bool, failure: Mail -> Option<string>)
    : (r: (Result<string, Error>, Pending))
    ensures r.0.Failure? ==> r.0.error.AppError? && r.0.error.statusCode == BadRequest
    ensures r.0.Success? ==> r.0.value == OtpSentMessage
    ensures !RegisterAcceptable(input, isEmail) ==>
      r == (Failure(AsBadRequest(ZodError(RegisterIssues(input, isEmail)))), p)
    ensures r.1 != p ==> RegisterAcceptable(input, isEmail) && UserStore.UserWithEmail(users, input.email.value).None?
    ensures r.0.Success? <==>
      && RegisterAcceptable(input, isEmail)
      && UserStore.UserWithEmail(users, input.email.value).None?
      && failure(Mail(input.email.value, OtpSubject, RegistrationMessage(input.name.value, DecimalString(n)))).None?
  {
    if !RegisterAcceptable(input, isEmail) then
      (Failure(AsBadRequest(ZodError(RegisterIssues(input, isEmail)))), p)
    else
      var (email, password, name) := (input.email.value, input.password.value, input.name.value);
      if UserStore.UserWithEmail(users, email).Some? then (Failure(AsBadRequest(PlainError(UserExistsMessage))), p)
      else
        var otp := DecimalString(n);
        var records := StoreEffect(p.records, email, otp, UserDetails(name, email, password), now);
        var mail := Mail(email, OtpSubject, RegistrationMessage(name, otp));
        match SendOutcome(failure, mail)
        case Fail(e) => (Failure(AsBadRequest(e)), Pending(records, p.mails + [mail]))
        case Pass => (Success(OtpSentMessage), Pending(records, p.mails + [mail]))
  }

  /** `RegisterUserUseCase`, wired to the users store, the OTP store and the mailer. */
  class RegisterUserUseCase {
    const users: UserStore.UserRepository
    const otps: OtpStore
    const mailer: Mailer
    /** zod's `z.string().email()` format check. */
    const isEmail: string -> bool

    constructor (users: UserStore.UserRepository, otps: OtpStore, mailer: Mailer, isEmail: string -> bool)
      ensures this.users == users && this.otps == otps && this.mailer == mailer && this.isEmail == isEmail
    {
      this.users := users;
      this.otps := otps;
      this.mailer := mailer;
      this.isEmail := isEmail;
    }

    method Execute(input: RegisterInput, now: Millis) returns (r: Result<string, Error>)
      modifies otps, mailer
      ensures exists n: nat :: (MinOtp <= n <= MaxOtp
        && (r, Pending(otps.records, mailer.attempts))
          == RegisterEffect(users.docs, old(Pending(otps.records, mailer.attempts)), input, now, n, isEmail, mailer.failure))
    {
      ghost var before := Pending(otps.records, mailer.attempts);
      if !RegisterAcceptable(input, isEmail) {
        r := Failure(AsBadRequest(ZodError(RegisterIssues(input, isEmail))));
        assert (r, before) == RegisterEffect(users.docs, before, input, now, MinOtp, isEmail, mailer.failure);
        return;
      }
      var email, password, name := input.email.value, input.password.value, input.name.value;
      var existing := users.FindByEmail(email);
      if existing.Some? {
        r := Failure(AsBadRequest(PlainError(UserExistsMessage)));
        assert (r, before) == RegisterEffect(users.docs, before, input, now, MinOtp, isEmail, mailer.failure);
        return;
      }
      var n: nat :| MinOtp <= n <= MaxOtp;
      var otp := DecimalString(n);
      otps.StoreUserDetailsWithOtp(email, otp, UserDetails(name, email, password), now);
      var sent := mailer.Send(Mail(email, OtpSubject, RegistrationMessage(name, otp)));
      r := if sent.Fail? then Failure(AsBadRequest(sent.error)) else Success(OtpSentMessage);
      assert (r, Pending(otps.records, mailer.attempts))
        == RegisterEffect(users.docs, before, input, now, n, isEmail, mailer.failure);
    }
  }

  /** A registration for an email that already has a user changes nothing and sends nothing. */
  lemma ExistingUserParksNothing(users: seq<User>, p: Pending, input: RegisterInput, now: Millis, n: nat,
                                 isEmail: string -> bool, failure: Mail -> Option<string>)
    requires RegisterAcceptable(input, isEmail)
    requires UserStore.UserWithEmail(users, input.email.value).Some?
    ensures RegisterEffect(users, p, input, now, n, isEmail, failure)
      == (Failure(AppError(UserExistsMessage, BadRequest)), p)
  {
  }

  /**
   * A registration that gets past the checks parks the details under a six-digit
   * OTP, whether or not the mail goes out, and mails that OTP to the address.
   */
  lemma RegistrationParksSixDigitOtp(users: seq<User>, p: Pending, input: RegisterInput, now: Millis, n: nat,
                                     isEmail: string -> bool, failure: Mail -> Option<string>)
    requires MinOtp <= n <= MaxOtp
    requires RegisterAcceptable(input, isEmail)
    requires UserStore.UserWithEmail(users, input.email.value).None?
    ensures var after := RegisterEffect(users, p, input, now, n, isEmail, failure).1;
      var email := input.email.value;
      && email in after.records
      && |after.records[email].otp| == 6
      && after.records[email].expires == now + OtpLifetimeMs
      && after.records[email].userDetails == UserDetails(input.name.value, email, input.password.value)
      && after.mails == p.mails + [Mail(email, OtpSubject, RegistrationMessage(input.name.value, after.records[email].otp))]
      && forall e :: e in p.records && e != email ==> e in after.records && after.records[e] == p.records[e]
  {
    SixDigits(n);
  }

  /** The OTP a registration parks is the one that verifies, until it expires. */
  lemma RegisteredOtpVerifies(users: seq<User>, p: Pending, input: RegisterInput, now: Millis, n: nat,
                              isEmail: string -> bool, failure: Mail -> Option<string>, later: Millis)
    requires RegisterAcceptable(input, isEmail)
    requires UserStore.UserWithEmail(users, input.email.value).None?
    requires now <= later <= now + OtpLifetimeMs
    ensures var after := RegisterEffect(users, p, input, now, n, isEmail, failure).1;
      VerifyEffect(after.records, input.email.value, DecimalString(n), later).0
  {
  }

  /** What verifying an OTP reads and writes: the users, the pending records and the id source. */
  datatype Accounts = Accounts(users: seq<User>, records: map<string, OtpRecord>, nextId: ObjectId)

  /** The user a verified registration creates: attendee, not blocked, no Google id, hashed password. */
  function NewUser(details: UserDetails, id: ObjectId, now: Millis, hash: string -> string): (u: User)
    ensures u.email == details.email && u.name == details.name && u.role == Attendee
    ensures u.password == Some(hash(details.password)) && u.googleId.None? && !u.isBlocked
    ensures u.id == id && u.createdAt == now && u.updatedAt == now
  {
    User(id, details.email, details.name, Attendee, Some(hash(details.password)), None, now, now, false)
  }

  /**
   * `VerifyOtpUseCase.execute(email, otp)`: the outcome and the state after. A
   * rejected OTP is an AppError 400 (an expired record is dropped on the way);
   * an accepted one hashes the password, draws an id and creates the user, and
   * only then drops the pending record. A failing create is rethrown as is.
   */
  function VerifyOtpEffect(a: Accounts, email: string, otp: string, now: Millis, hash: string -> string)
    : (r: (Result<User, Error>, Accounts))
    ensures !Accepts(a.records, email, otp, now) ==>
      && r.0 == Failure(AppError(InvalidOtpMessage, BadRequest))
      && r.1 == Accounts(a.users, VerifyEffect(a.records, email, otp, now).1, a.nextId)
    ensures r.0.Success? ==>
      && Accepts(a.records, email, otp, now)
      && r.0.value == NewUser(a.records[email].userDetails, a.nextId, now, hash)
      && r.1 == Accounts(a.users + [r.0.value], a.records - {email}, NextId(a.nextId))
    ensures Accepts(a.records, email, otp, now) && r.0.Failure? ==>
      r.1 == Accounts(a.users, a.records, NextId(a.nextId))
    ensures Accepts(a.records, email, otp, now) ==>
      var created := UserStore.CreateEffect(a.users, NewUser(a.records[email].userDetails, a.nextId, now, hash));
      && (r.0.Success? <==> created.0.Success?)
      && (created.0.Failure? ==> r.0 == Failure(created.0.error))
  {
    var (ok, records) := VerifyEffect(a.records, email, otp, now);
    if !ok then (Failure(AppError(InvalidOtpMessage, BadRequest)), Accounts(a.users, records, a.nextId))
    else
      var user := NewUser(records[email].userDetails, a.nextId, now, hash);
      var (created, users) := UserStore.CreateEffect(a.users, user);
      match created
      case Failure(e) => (Failure(e), Accounts(a.users, records, NextId(a.nextId)))
      case Success(saved) => (Success(saved), Accounts(users, records - {email}, NextId(a.nextId)))
  }

  /** `VerifyOtpUseCase`, wired to the users store, the OTP store, the id source and `bcrypt.hash`. */
  class VerifyOtpUseCase {
    const users: UserStore.UserRepository
    const otps: OtpStore
    const ids: IdGenerator
    const hash: string -> string

    constructor (users: UserStore.UserRepository, otps: OtpStore, ids: IdGenerator, hash: string -> string)
      ensures this.users == users && this.otps == otps && this.ids == ids && this.hash == hash
    {
      this.users := users;
      this.otps := otps;
      this.ids := ids;
      this.hash := hash;
    }

    method Execute(email: string, otp: string, now: Millis) returns (r: Result<User, Error>)
      requires users.Valid()
      modifies users, otps, ids
      ensures users.Valid()
      ensures (r, Accounts(users.docs, otps.records, ids.next))
        == VerifyOtpEffect(old(Accounts(users.docs, otps.records, ids.next)), email, otp, now, hash)
    {
      var isValid := otps.VerifyOtp(email, otp, now);
      if !isValid {
        return Failure(AppError(InvalidOtpMessage, BadRequest));
      }
      var details := otps.GetUserDetailsByEmail(email);
      if details.None? {
        // The "No user details found" error: an accepted OTP implies a pending record.
        assert false;
      }
      var hashed := hash(details.value.password);
      var id := ids.Fresh();
      var user := User(id, details.value.email, details.value.name, Attendee, Some(hashed), None, now, now, false);
      var saved := users.Create(user);
      if saved.Failure? {
        return Failure(saved.error);
      }
      otps.RemoveOtp(email);
      r := saved;
    }
  }

  /**
   * Registration then verification: within five minutes, the mailed OTP creates
   * the user for a fresh email when the id drawn is unused.
   */
  lemma RegisteredUserVerifies(users: seq<User>, p: Pending, input: RegisterInput, now: Millis, n: nat,
                               isEmail: string -> bool, failure: Mail -> Option<string>,
                               nextId: ObjectId, later: Millis, hash: string -> string)
    requires RegisterAcceptable(input, isEmail) && input.email.value != ""
    requires UserStore.UserWithEmail(users, input.email.value).None?
    requires forall u :: u in users ==> u.id != nextId
    requires now <= later <= now + OtpLifetimeMs
    ensures var after := RegisterEffect(users, p, input, now, n, isEmail, failure).1;
      var v := VerifyOtpEffect(Accounts(users, after.records, nextId), input.email.value, DecimalString(n), later, hash);
      && v.0.Success?
      && v.0.value.email == input.email.value && v.0.value.name == input.name.value
      && v.0.value.password == Some(hash(input.password.value))
  {
    var after := RegisterEffect(users, p, input, now, n, isEmail, failure).1;
    RegisteredOtpVerifies(users, p, input, now, n, isEmail, failure, later);
    var details := after.records[input.email.value].userDetails;
    assert details == UserDetails(input.name.value, input.email.value, input.password.value);
    assert !UserStore.Conflicts(users, NewUser(details, nextId, later, hash));
  }

  /** Once an OTP has created the user, the same OTP is refused: its record is gone. */
  lemma VerifiedOtpIsSpent(a: Accounts, email: string, otp: string, now: Millis, later: Millis, hash: string -> string)
    requires VerifyOtpEffect(a, email, otp, now, hash).0.Success?
    ensures var again := VerifyOtpEffect(VerifyOtpEffect(a, email, otp, now, hash).1, email, otp, later, hash);
      again.0 == Failure(AppError(InvalidOtpMessage, BadRequest))
  {
  }

  /** The stored password is the hash of the pending one, and the user is the one returned. */
  lemma VerifiedUserIsStored(a: Accounts, email: string, otp: string, now: Millis, hash: string -> string)
    requires UserStore.UniqueKeys(a.users)
    requires VerifyOtpEffect(a, email, otp, now, hash).0.Success?
    ensures var (r, after) := VerifyOtpEffect(a, email, otp, now, hash);
      && UserStore.UserWithEmail(after.users, r.value.email) == Some(r.value)
      && r.value.password == Some(hash(a.records[email].userDetails.password))
  {
    var user := VerifyOtpEffect(a, email, otp, now, hash).0.value;
    UserStore.CreateThenFindByEmail(a.users, user);
  }

  /**
   * `ResendOtpUseCase.execute(email)` when the draw gives `n`: no pending details
   * is an AppError 400; otherwise the record is replaced by a fresh OTP for the
   * same details, with a fresh expiry, and the OTP is mailed to `email`.
   */
  function ResendEffect(p: Pending, email: string, now: Millis, n: nat, failure: Mail -> Option<string>)
    : (r: (Result<string, Error>, Pending))
    ensures email !in p.records ==> r == (Failure(AppError(NoDetailsForEmailMessage, BadRequest)), p)
    ensures r.0.Failure? ==> r.0.error.AppError? && r.0.error.statusCode == BadRequest
    ensures r.0.Success? ==> r.0.value == OtpResentMessage
    ensures email in p.records ==>
      var details := p.records[email].userDetails;
      var mail := Mail(email, OtpSubject, ResendMessage(details.name, DecimalString(n)));
      && r.1 == Pending(StoreEffect(p.records, email, DecimalString(n), details, now), p.mails + [mail])
      && (r.0.Success? <==> SendOutcome(failure, mail).Pass?)
  {
    if email !in p.records then (Failure(AsBadRequest(AppError(NoDetailsForEmailMessage, BadRequest))), p)
    else
      var details := p.records[email].userDetails;
      var otp := DecimalString(n);
      var records := StoreEffect(p.records, email, otp, details, now);
      var mail := Mail(email, OtpSubject, ResendMessage(details.name, otp));
      match SendOutcome(failure, mail)
      case Fail(e) => (Failure(AsBadRequest(e)), Pending(records, p.mails + [mail]))
      case Pass => (Success(OtpResentMessage), Pending(records, p.mails + [mail]))
  }

  /** `ResendOtpUseCase`, wired to the OTP store and the mailer. */
  class ResendOtpUseCase {
    const otps: OtpStore
    const mailer: Mailer

    constructor (otps: OtpStore, mailer: Mailer)
      ensures this.otps == otps && this.mailer == mailer
    {
      this.otps := otps;
      this.mailer := mailer;
    }

    method Execute(email: string, now: Millis) returns (r: Result<string, Error>)
      modifies otps, mailer
      ensures exists n: nat :: (MinOtp <= n <= MaxOtp
        && (r, Pending(otps.records, mailer.attempts))
          == ResendEffect(old(Pending(otps.records, mailer.attempts)), email, now, n, mailer.failure))
    {
      ghost var before := Pending(otps.records, mailer.attempts);
      var details := otps.GetUserDetailsByEmail(email);
      if details.None? {
        r := Failure(AsBadRequest(AppError(NoDetailsForEmailMessage, BadRequest)));
        assert (r, before) == ResendEffect(before, email, now, MinOtp, mailer.failure);
        return;
      }
      var n: nat :| MinOtp <= n <= MaxOtp;
      var otp := DecimalString(n);
      otps.StoreUserDetailsWithOtp(email, otp, details.value, now);
      var sent := mailer.Send(Mail(email, OtpSubject, ResendMessage(details.value.name, otp)));
      r := if sent.Fail? then Failure(AsBadRequest(sent.error)) else Success(OtpResentMessage);
      assert (r, Pending(otps.records, mailer.attempts)) == ResendEffect(before, email, now, n, mailer.failure);
    }
  }

  /**
   * A resend keeps the pending details, even for an expired record, and swaps in
   * the new OTP: the new one verifies for five minutes, and an old OTP that
   * differs from it no longer does.
   */
  lemma ResendReplacesOtp(p: Pending, email: string, now: Millis, n: nat, failure: Mail -> Option<string>,
                          oldOtp: string, later: Millis)
    requires email in p.records
    requires MinOtp <= n <= MaxOtp
    requires oldOtp != DecimalString(n)
    requires now <= later <= now + OtpLifetimeMs
    ensures var after := ResendEffect(p, email, now, n, failure).1;
      && after.records[email].userDetails == p.records[email].userDetails
      && |after.records[email].otp| == 6
      && VerifyEffect(after.records, email, DecimalString(n), later).0
      && !VerifyEffect(after.records, email, oldOtp, later).0
  {
    SixDigits(n);
  }
}
