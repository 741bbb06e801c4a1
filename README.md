# Event management: a verified model of the booking pipeline

This project models the core of an event-management web application (an
Express/MongoDB back end and a React front end) in Dafny, and proves
properties of that model. It covers:

- **Booking and ticket issuance.** The Stripe checkout request for an event.
  The webhook handler that, for a completed checkout, raises the event's
  attendee count, mints a ticket id, renders the QR payload and stores one
  booked ticket. The two controller entry points.
- **The stores.** The events collection (a map from `_id` to record), the
  tickets and users collections (sequences in insertion order, since `find`
  and `findOne` answer in natural order), each as a class whose methods are
  tied to a pure effect function.
- **Registration by one-time password.** The in-memory OTP store with its
  five-minute expiry, and the register, verify and resend use cases.
- **Blocking a user.** The toggle of `isBlocked`.
- **Request decisions.** The JWT middleware (token extraction, verification,
  role gate) and the error middleware (status and body per error kind).
- **Validators.** The back end's `CreateEventSchema` and `RegisterUserSchema`,
  and the front end's `eventSchema`, `registerSchema` and `loginSchema`, each
  as the list of issues zod reports (every failing check, in declaration
  order) and an acceptance predicate.
- **The front end's session slice.** `setUser` and `clearUser`.

Stateful code is modelled as classes whose methods promise
`(result, new state) == Effect(old state, inputs)`; the properties are proved
about the effect functions.

The model follows the code as written:

- The attendee increment has no capacity check, and the webhook has no
  deduplication. A redelivered event books a second ticket.
- The increment's result is ignored, so a ticket is stored for an unknown event.
- A malformed `userId` is detected only after the increment.
- The scheme word of the Authorization header is never checked.
- The front-end schemas keep their messages as written: the title's upper limit
  is 35 while its message says 15, and the name's lower limit is 5 while its
  message says 3.
- In `VerifyOtpUseCase` the "No user details found" branch cannot be reached.
  An OTP is accepted only when a record exists, and that record holds the
  details. The verify method shows this with `assert false` in that branch.

Clocks, id generation, randomness and foreign calls are parameters:

- `now` is the clock.
- `IdGenerator` is a counter that yields fresh ObjectIds.
- The OTP draw is a nondeterministic choice in [100000, 999999].
- Foreign calls are function-typed parameters: `QRCode.toDataURL`,
  `stripe.webhooks.constructEvent`, `stripe.checkout.sessions.create`,
  `bcrypt.hash`, `sendEmail`, `jwt.verify`, zod's email and date format
  checks, and `new Date(text)`.

String lengths in the validators are JavaScript's `length`: UTF-16 code units,
so a character outside the Basic Multilingual Plane counts twice. A `min(1)` or
`nonempty` check only asks whether the string is empty, and is written that way.

ObjectIds are numbers below 16^24. Their text form is 24 lower-case hex
digits, and parsing accepts exactly 24 hex digits of either case.

The status codes are 200, 400, 401, 403 and 500, the standard HTTP values for
the names the code uses. The constants file that defines them is not part of
this model.

## Model

| member | source | states |
|---|---|---|
| ObjectIds.ToHexString | backend/src/application/usecases/event/HandleStripeWebhookUseCase.ts:32 | `toHexString()` gives 24 lower-case hex digits |
| ObjectIds.HexRoundTrip | backend/src/application/usecases/event/HandleStripeWebhookUseCase.ts:32 | reading the hex digits back gives the number modulo 16 to the width |
| ObjectIds.NextId | backend/src/application/usecases/event/HandleStripeWebhookUseCase.ts:32 | each new id differs from the previous one |
| ObjectIds.Parse | backend/src/application/usecases/event/HandleStripeWebhookUseCase.ts:41-42 | `new ObjectId(text)` succeeds exactly for 24 hex digits |
| ObjectIds.ParseToHexString | backend/src/application/usecases/event/HandleStripeWebhookUseCase.ts:32 | the text of a fresh id parses back to that id |
| ObjectIds.ToHexStringInjective | backend/src/application/usecases/event/HandleStripeWebhookUseCase.ts:32 | different ids have different texts |
| ObjectIds.NextIdsDistinct | backend/src/application/usecases/event/HandleStripeWebhookUseCase.ts:32-39 | three ids drawn in a row are pairwise distinct |
| ObjectIds.IdGenerator.Fresh | backend/src/application/usecases/event/HandleStripeWebhookUseCase.ts:39 | returns the next id and advances the source |
| Text.Split | backend/src/presentation/middlewares/authMiddleware.ts:24 | `split(' ')` yields at least one piece, no piece holds a space, and joining the pieces with spaces gives the input back |
| Text.SplitAfterWord | backend/src/presentation/middlewares/authMiddleware.ts:24 | a word without a space is split off whole, whatever follows it |
| Text.SplitWord | backend/src/presentation/middlewares/authMiddleware.ts:24 | a string without a space is a single piece |
| Text.JsLength | frontend/src/schema/eventSchema.ts:8-9 | `length` counts UTF-16 units: at least one and at most two per character, and zero only for the empty string |
| Text.JsLengthOfBmp | frontend/src/schema/eventSchema.ts:8-9 | for characters of the Basic Multilingual Plane, `length` is the number of characters |
| Text.TrimEmptyIffBlank | frontend/src/schema/eventSchema.ts:10 | `trim().length > 0` holds exactly when some character is not whitespace |
| Text.DecimalString | backend/src/application/usecases/user/RegisterUserUseCase.ts:34 | `toString()` of a number gives at least one decimal digit and nothing else |
| Text.DecimalRoundTrip | backend/src/application/usecases/user/RegisterUserUseCase.ts:34 | the decimal text of a number reads back as that number |
| Text.SixDigits | backend/src/application/usecases/user/RegisterUserUseCase.ts:34 | every drawn OTP is written with exactly six digits |
| Errors.Respond | backend/src/presentation/middlewares/errorMiddleware.ts:8-63 | ZodError: 400 ValidationError with one `{field: path joined by ".", issue}` per issue. AppError: its status (500 when 0) and its message (the generic one when empty). Anything else: 500 ServerError with the generic message. `success` is always false |
| Errors.ServerErrorHidesMessage | backend/src/presentation/middlewares/errorMiddleware.ts:52-62 | two unexpected errors give the same response whatever their messages |
| Errors.ServerErrorIff | backend/src/presentation/middlewares/errorMiddleware.ts:14-62 | the status is 500 exactly for unexpected errors and AppErrors with status 0 or 500 |
| Errors.AsBadRequest | backend/src/application/usecases/user/RegisterUserUseCase.ts:50-55 | a rewrapped failure is an AppError with status 400 |
| Errors.RewrappedIsBadRequest | backend/src/application/usecases/user/RegisterUserUseCase.ts:50-55 | a rewrapped failure reaches the client as a 400 AppError |
| AuthMiddleware.Secret | backend/src/presentation/middlewares/authMiddleware.ts:7 | the secret is the variable when set and non-empty, else "Nothing" |
| AuthMiddleware.Token | backend/src/presentation/middlewares/authMiddleware.ts:24 | a token exists exactly when the header exists and holds a space; it holds no space |
| AuthMiddleware.Decide | backend/src/presentation/middlewares/authMiddleware.ts:22-41 | no or empty token: 401 "No token provided"; a token `verify` refuses: 401 "Invalid token"; a verified token whose role is not allowed: 403 "Access forbidden". Admitted exactly when the token verifies and its role is allowed, and then the user is the token's claims |
| AuthMiddleware.TokenIsSecondWord | backend/src/presentation/middlewares/authMiddleware.ts:24 | for `scheme token [rest]` the token is the second word |
| AuthMiddleware.SchemeIsNotChecked | backend/src/presentation/middlewares/authMiddleware.ts:24 | any scheme word decides like "Bearer" |
| AuthMiddleware.RejectionResponse | backend/src/presentation/middlewares/authMiddleware.ts:25-40 | a rejection reaches the client as 401 or 403 with one of the three auth messages |
| AuthMiddleware.Guard.Handle | backend/src/presentation/middlewares/authMiddleware.ts:23-41 | one `next` call: the error with `req.user` untouched, or none with `req.user` set to the bearer |
| EventStore.CreateEffect | backend/src/infrastructure/database/repositories/EventRepository.ts:10-35 | succeeds exactly when the required fields are set and the id is free; then stores and returns the same record; a failure changes nothing |
| EventStore.UpdateEffect | backend/src/infrastructure/database/repositories/EventRepository.ts:83-91 | null and no change exactly for an unknown id; else the patched, stamped record is stored and returned |
| EventStore.EmptyPatchOnlyStamps | backend/src/infrastructure/database/repositories/EventRepository.ts:87-89 | an empty patch changes only `updatedAt` |
| EventStore.IncrementEffect | backend/src/infrastructure/database/repositories/EventRepository.ts:130-138 | null and no change exactly for an unknown id; else the record with one more attendee is stored and returned |
| EventStore.IncrementChangesOnlyAttendees | backend/src/infrastructure/database/repositories/EventRepository.ts:130-138 | the increment adds exactly 1 to `attendees` and changes no other event and no other field but the stamp |
| EventStore.IncrementTimes | backend/src/infrastructure/database/repositories/EventRepository.ts:130-138 | repeated increments keep the set of event ids |
| EventStore.IncrementTimesAdds | backend/src/infrastructure/database/repositories/EventRepository.ts:134-136 | k increments add exactly k, and `maxAttendees` stays the same |
| EventStore.IncrementsOverflowCapacity | backend/src/infrastructure/database/repositories/EventRepository.ts:134-136 | enough increments push `attendees` above `maxAttendees` |
| EventStore.DeleteEffect | backend/src/infrastructure/database/repositories/EventRepository.ts:93-96 | a malformed id is a CastError; else true exactly when a record existed, and none is left under that id |
| EventStore.CheckoutRequestShape | backend/src/infrastructure/database/repositories/EventRepository.ts:105-125 | one line item, quantity 1, "usd", `price * 100`, mode "payment", metadata exactly `{eventId, userId}` |
| EventStore.CheckoutEffect | backend/src/infrastructure/database/repositories/EventRepository.ts:98-128 | a malformed id or unknown event fails before any request; otherwise exactly one checkout request is sent and Stripe's answer is the outcome |
| EventStore.StripeCheckout.Create | backend/src/infrastructure/database/repositories/EventRepository.ts:105-125 | records the request and returns Stripe's answer |
| EventStore.EventRepository.Create | backend/src/infrastructure/database/repositories/EventRepository.ts:10-35 | is `CreateEffect` on the collection and keeps every record under its own id |
| EventStore.EventRepository.FindById | backend/src/infrastructure/database/repositories/EventRepository.ts:37-58 | the record filed under the id, or null exactly when there is none |
| EventStore.EventRepository.Update | backend/src/infrastructure/database/repositories/EventRepository.ts:83-91 | is `UpdateEffect` on the collection |
| EventStore.EventRepository.Delete | backend/src/infrastructure/database/repositories/EventRepository.ts:93-96 | is `DeleteEffect` on the collection |
| EventStore.EventRepository.IncrementAttendees | backend/src/infrastructure/database/repositories/EventRepository.ts:130-138 | is `IncrementEffect` on the collection |
| EventStore.EventRepository.CreateCheckoutSession | backend/src/infrastructure/database/repositories/EventRepository.ts:98-128 | is `CheckoutEffect`, with the requests it sends appended to Stripe's log |
| TicketStore.CreateEffect | backend/src/infrastructure/database/repositories/TicketRepository.ts:7-19 | succeeds exactly when no unique key (`_id`, `ticketId`, `qrCode`) is taken and the required fields are set; then appends and returns the same ticket; keeps keys unique |
| TicketStore.Latest | backend/src/infrastructure/database/repositories/TicketRepository.ts:67-69 | null exactly for no tickets; else a member with the maximal purchase date |
| TicketStore.TicketRepository.Create | backend/src/infrastructure/database/repositories/TicketRepository.ts:7-19 | is `CreateEffect` on the collection and keeps keys unique |
| TicketStore.TicketRepository.FindByUserId | backend/src/infrastructure/database/repositories/TicketRepository.ts:21-35 | exactly the user's tickets, with their multiplicities |
| TicketStore.TicketRepository.FindByEventId | backend/src/infrastructure/database/repositories/TicketRepository.ts:37-51 | exactly the event's tickets, with their multiplicities |
| TicketStore.TicketRepository.FindByTicketId | backend/src/infrastructure/database/repositories/TicketRepository.ts:53-65 | a stored ticket with that `ticketId`, or null exactly when there is none |
| TicketStore.TicketRepository.GetLatestTicketByUser | backend/src/infrastructure/database/repositories/TicketRepository.ts:67-69 | one of the user's tickets with the latest purchase date, or null exactly when the user has none |
| TicketStore.TicketRepository.GetAllTickets | backend/src/infrastructure/database/repositories/TicketRepository.ts:77-81 | every stored ticket, as a multiset |
| TicketStore.TicketRepository.FindByTicketIdUnique | backend/src/infrastructure/database/models/TicketModel.ts:5-10 | with unique ticket ids, the lookup finds the one ticket holding it |
| TicketStore.TicketRepository.QueriesCoverStore | backend/src/infrastructure/database/repositories/TicketRepository.ts:21-81 | a ticket is stored exactly when it is among its buyer's and among its event's tickets |
| QrPayloads.EscapeChar | backend/src/application/usecases/event/HandleStripeWebhookUseCase.ts:34 | `JSON.stringify` writes a character as itself or as an escape starting with a backslash, never opening with a quote or a control character |
| QrPayloads.DecodeQrJson | backend/src/application/usecases/event/HandleStripeWebhookUseCase.ts:33-35 | the QR text decodes back to exactly `{ticketId, eventId, userId}` |
| QrPayloads.QrJsonInjective | backend/src/application/usecases/event/HandleStripeWebhookUseCase.ts:34 | different payloads give different QR texts |
| Booking.CorrelationIds | backend/src/application/usecases/event/HandleStripeWebhookUseCase.ts:22-25 | both ids are read exactly when both are present and non-empty |
| Booking.Fulfil | backend/src/application/usecases/event/HandleStripeWebhookUseCase.ts:17-53 | other events and missing ids change nothing. A handled event passes exactly when both ids are ObjectIds, the QR renders to a non-empty image and no stored ticket holds the minted `_id`, `ticketId` or image. The event keys are kept, and tickets are only appended, at most one. On success the increment happened and exactly one booked ticket with the metadata ids, the fresh ticket id and the QR of `{ticketId, eventId, userId}` is appended. A failure appends no ticket |
| Booking.StripeWebhookHandler.Execute | backend/src/application/usecases/event/HandleStripeWebhookUseCase.ts:17-53 | is `Fulfil` on the two collections and the id source |
| Booking.TicketIdIsNotStorageId | backend/src/application/usecases/event/HandleStripeWebhookUseCase.ts:32-40 | the stored `ticketId` names another id than the ticket's `_id` |
| Booking.QrCarriesTicketAndIds | backend/src/application/usecases/event/HandleStripeWebhookUseCase.ts:32-45 | the QR code renders a text that decodes to the stored ticket id and the metadata ids |
| Booking.TicketWithoutEvent | backend/src/application/usecases/event/HandleStripeWebhookUseCase.ts:27-46 | with no such event, a booking that meets the pass condition still stores a ticket on top of any store, and the events stay the same |
| Booking.BadUserIdAfterIncrement | backend/src/application/usecases/event/HandleStripeWebhookUseCase.ts:27-42 | a malformed `userId` fails after the increment: the count stays raised and no ticket is stored |
| Booking.RedeliveryBooksTwice | backend/src/application/usecases/event/HandleStripeWebhookUseCase.ts:17-48 | from any store whose next drawn ids are unused, the same event handled twice adds two attendees and two tickets for the same event and user |
| Booking.RedeliveryIsFresh | backend/src/application/usecases/event/HandleStripeWebhookUseCase.ts:32-46 | the ticket a first delivery stores does not block the ticket a redelivery mints |
| Booking.CheckoutMetadataRoundTrip | backend/src/infrastructure/database/repositories/EventRepository.ts:121-124 | the metadata sent at checkout reads back as the same two ids |
| EventControllers.CheckoutExchange | backend/src/presentation/controllers/EventController.ts:92-100 | success replies 200 with the session id; failure sends nothing and forwards the error |
| EventControllers.WebhookExchange | backend/src/presentation/controllers/EventController.ts:114-119 | 200 `{received: true}` exactly without failure; else 400 "Webhook Error: message", and the error is forwarded |
| EventControllers.WebhookNeverServerError | backend/src/presentation/controllers/EventController.ts:116-118 | a webhook is never answered 500 |
| EventControllers.CheckoutFailureIsServerError | backend/src/presentation/controllers/EventController.ts:98-100 | every checkout failure reaches the client as 500 with the generic message |
| EventControllers.EventController.CreateCheckoutSession | backend/src/presentation/controllers/EventController.ts:78-101 | without a user id: forwards "User ID is required" and sends no request; else the checkout decides the exchange |
| EventControllers.EventController.StripeWebhook | backend/src/presentation/controllers/EventController.ts:103-121 | a signature failure is answered 400 and nothing changes; otherwise `Fulfil` runs and its error, if any, is answered 400 |
| CreateEvent.NonEmptyIssues | backend/src/application/usecases/event/CreateEventUseCase.ts:9-14 | no issue exactly for a present, non-empty string |
| CreateEvent.DateIssues | backend/src/application/usecases/event/CreateEventUseCase.ts:11 | no issue exactly for a date or date-time text; an absent date is "Invalid input" and a malformed one "Invalid date" |
| CreateEvent.NumberIssues | backend/src/application/usecases/event/CreateEventUseCase.ts:15-16 | no issue exactly for a number that is positive (`maxAttendees`) or non-negative (`price`) |
| CreateEvent.ParseEventInput | backend/src/application/usecases/event/CreateEventUseCase.ts:8-20 | accepted exactly when every field rule holds, and then the parsed body is the input's fields with the defaults `[]`, `""`, `[]`; a rejection lists every issue |
| CreateEvent.NewEvent | backend/src/application/usecases/event/CreateEventUseCase.ts:30-47 | fresh id, 0 attendees, "upcoming", validated fields copied unchanged |
| CreateEvent.CreateEventEffect | backend/src/application/usecases/event/CreateEventUseCase.ts:28-49 | a rejected body throws the ZodError, draws no id and stores nothing; an accepted one draws one id and `new Event` of the parsed body is stored under it unless that id is taken |
| CreateEvent.CreateEventUseCase.Execute | backend/src/application/usecases/event/CreateEventUseCase.ts:28-49 | is `CreateEventEffect` on the events and the id source |
| OtpStores.StoreEffect | backend/src/infrastructure/services/OtpStore.ts:9-15 | replaces the email's record, expiring 300000 ms after `now`; other records stay |
| OtpStores.VerifyEffect | backend/src/infrastructure/services/OtpStore.ts:17-26 | true exactly for a present, unexpired (expiry instant included), matching record; an expired record is removed; nothing else changes |
| OtpStores.OtpStore.StoreUserDetailsWithOtp | backend/src/infrastructure/services/OtpStore.ts:9-15 | is `StoreEffect` on the map |
| OtpStores.OtpStore.VerifyOtp | backend/src/infrastructure/services/OtpStore.ts:17-26 | is `VerifyEffect` on the map |
| OtpStores.OtpStore.GetUserDetailsByEmail | backend/src/infrastructure/services/OtpStore.ts:28-31 | the pending details exactly when a record exists, expired or not |
| OtpStores.OtpStore.RemoveOtp | backend/src/infrastructure/services/OtpStore.ts:33-35 | removes only that email's record |
| OtpStores.StoredOtpVerifiesUntilExpiry | backend/src/infrastructure/services/OtpStore.ts:9-26 | a stored OTP verifies up to five minutes later and not after |
| OtpStores.ExpiredRecordIsDropped | backend/src/infrastructure/services/OtpStore.ts:20-23 | a check after expiry deletes the record, so later checks fail |
| OtpStores.MismatchKeepsRecord | backend/src/infrastructure/services/OtpStore.ts:24 | a wrong OTP fails and keeps the record |
| OtpStores.RestoreInvalidatesOldOtp | backend/src/infrastructure/services/OtpStore.ts:9-26 | after storing a new OTP the old one no longer verifies |
| Registration.Mailer.Send | backend/src/application/usecases/user/RegisterUserUseCase.ts:45-47 | logs the mail and reports the failure the mail service gives |
| Registration.StringIssue | backend/src/application/usecases/user/RegisterUserUseCase.ts:12-16 | no issue exactly for a present string that passes its check |
| Registration.RegisterIssuesIff | backend/src/application/usecases/user/RegisterUserUseCase.ts:12-16 | no issue exactly for an email of the right format, a password of 6 or more UTF-16 units and a non-empty name |
| Registration.RegisterEffect | backend/src/application/usecases/user/RegisterUserUseCase.ts:25-56 | input the schema refuses fails with the rewrapped ZodError and parks and sends nothing; only a valid, unregistered email changes the pending state; success exactly when the input is valid, the email is free and the mail goes out, answering "OTP sent successfully"; every failure is a 400 AppError |
| Registration.RegisterUserUseCase.Execute | backend/src/application/usecases/user/RegisterUserUseCase.ts:25-56 | is `RegisterEffect` for some OTP drawn from [100000, 999999] |
| Registration.ExistingUserParksNothing | backend/src/application/usecases/user/RegisterUserUseCase.ts:28-32 | a taken email fails with "User already exists" and stores and sends nothing |
| Registration.RegistrationParksSixDigitOtp | backend/src/application/usecases/user/RegisterUserUseCase.ts:34-47 | the email maps to a six-digit OTP and to `{name, email, password}`, and the record stays even when the mail fails |
| Registration.RegisteredOtpVerifies | backend/src/application/usecases/user/RegisterUserUseCase.ts:34-42 | the mailed OTP verifies within five minutes |
| Registration.NewUser | backend/src/application/usecases/user/VerifyOtpUseCase.ts:26-36 | the pending email and name, role attendee, not blocked, no Google id, the password's hash |
| Registration.VerifyOtpEffect | backend/src/application/usecases/user/VerifyOtpUseCase.ts:17-42 | a rejected OTP is a 400 AppError and creates no user. An accepted OTP succeeds exactly when the create of the new user succeeds, and a failed create is returned as is. On success the user is appended and then the record removed. A failed create keeps the record |
| Registration.VerifyOtpUseCase.Execute | backend/src/application/usecases/user/VerifyOtpUseCase.ts:17-42 | is `VerifyOtpEffect` on the users, the OTP map and the id source |
| Registration.RegisteredUserVerifies | backend/src/application/usecases/user/VerifyOtpUseCase.ts:17-41 | within five minutes of registering a fresh email, its mailed OTP creates the user with that email and name and the hashed password, when the drawn id is unused |
| Registration.VerifiedOtpIsSpent | backend/src/application/usecases/user/VerifyOtpUseCase.ts:38-40 | a second verification with the same OTP fails |
| Registration.VerifiedUserIsStored | backend/src/application/usecases/user/VerifyOtpUseCase.ts:24-41 | the returned user is the stored one, found by its email, with the hashed password |
| Registration.ResendEffect | backend/src/application/usecases/user/ResendOtpUseCase.ts:6-30 | no pending details: 400 "No user details found for this email" and no change. Otherwise, expired or not, the record is replaced by the new OTP for the same details, the resend mail is sent, and the resend succeeds exactly when that mail goes out; every failure is a 400 AppError |
| Registration.ResendOtpUseCase.Execute | backend/src/application/usecases/user/ResendOtpUseCase.ts:6-30 | is `ResendEffect` for some OTP drawn from [100000, 999999] |
| Registration.ResendReplacesOtp | backend/src/application/usecases/user/ResendOtpUseCase.ts:13-16 | the new OTP verifies with the same details and the old one no longer does, even when the old record had expired |
| UserStore.CreateEffect | backend/src/infrastructure/database/repositories/UserRepository.ts:10-27 | succeeds exactly when name and email are set and neither id nor email is taken; appends the user; keeps keys unique |
| UserStore.UserWithEmail | backend/src/infrastructure/database/repositories/UserRepository.ts:29-43 | a stored user with that email, or null exactly when there is none |
| UserStore.IndexOfId | backend/src/infrastructure/database/repositories/UserRepository.ts:45-59 | the first position holding that id, or none exactly when no user has it |
| UserStore.UserWithId | backend/src/infrastructure/database/repositories/UserRepository.ts:45-59 | a stored user with that id, or null exactly when there is none |
| UserStore.UpdateById | backend/src/infrastructure/database/repositories/UserRepository.ts:129-136 | null and no change exactly for an unknown id; else only that user is replaced by its changed copy; keys stay unique |
| UserStore.WithPassword | backend/src/infrastructure/database/repositories/UserRepository.ts:89-93 | the change sets the password and nothing else |
| UserStore.WithBlocked | backend/src/infrastructure/database/repositories/UserRepository.ts:130-134 | the change sets `isBlocked` and nothing else |
| UserStore.ListNonAdmins | backend/src/infrastructure/database/repositories/UserRepository.ts:108-127 | exactly the non-admin users, each without password and Google id |
| UserStore.CreateThenFindByEmail | backend/src/infrastructure/database/repositories/UserRepository.ts:10-43 | after a create, the lookup by its email returns the same user |
| UserStore.UserRepository.Create | backend/src/infrastructure/database/repositories/UserRepository.ts:10-27 | is `CreateEffect` on the collection and keeps keys unique |
| UserStore.UserRepository.FindByEmail | backend/src/infrastructure/database/repositories/UserRepository.ts:29-43 | a stored user with that email, or null exactly when there is none |
| UserStore.UserRepository.FindById | backend/src/infrastructure/database/repositories/UserRepository.ts:45-59 | a stored user with that id, or null exactly when there is none |
| UserStore.UserRepository.UpdatePassword | backend/src/infrastructure/database/repositories/UserRepository.ts:85-106 | is `UpdateById` with the password change |
| UserStore.UserRepository.GetAllUsers | backend/src/infrastructure/database/repositories/UserRepository.ts:108-127 | exactly the non-admin users, each without password and Google id |
| UserStore.UserRepository.UpdateBlockStatus | backend/src/infrastructure/database/repositories/UserRepository.ts:129-149 | is `UpdateById` with the flag change; the returned copy has no password |
| UserStore.UserRepository.FindByEmailUnique | backend/src/infrastructure/database/models/UserModel.ts:6 | with unique emails, the lookup finds the one user holding it |
| UserStatus.ToggleEffect | backend/src/application/usecases/user/ToggleUserStatusUseCase.ts:12-19 | a malformed id fails with the invalid-id error and an unknown one with "User not found", both without change |
| UserStatus.ToggleFlipsOnlyTheFlag | backend/src/application/usecases/user/ToggleUserStatusUseCase.ts:16-18 | a known user's flag is negated, nothing else changes, and the updated user is returned without password |
| UserStatus.FlipKeepsIndex | backend/src/application/usecases/user/ToggleUserStatusUseCase.ts:17 | flipping a flag moves no user |
| UserStatus.ToggleTwiceRestores | backend/src/application/usecases/user/ToggleUserStatusUseCase.ts:16-17 | toggling twice restores the users |
| UserStatus.ToggleUserStatusUseCase.Execute | backend/src/application/usecases/user/ToggleUserStatusUseCase.ts:12-19 | is `ToggleEffect` on the users |
| FormSchemas.FirstMessage | frontend/src/pages/Login.tsx:38-41 | a message to show exactly when there is an issue |
| FormSchemas.NotBlankIssue | frontend/src/schema/eventSchema.ts:10 | no issue exactly when some character is not whitespace |
| FormSchemas.EmptyElementIssues | frontend/src/schema/eventSchema.ts:43-45 | no issue exactly when every element is non-empty; each issue names an empty element by its index |
| FormSchemas.TitleIssues | frontend/src/schema/eventSchema.ts:6-10 | no issue exactly for 3 to 35 UTF-16 units, not all whitespace |
| FormSchemas.DescriptionIssues | frontend/src/schema/eventSchema.ts:14-18 | no issue exactly for 5 to 100 UTF-16 units, not all whitespace |
| FormSchemas.LocationIssues | frontend/src/schema/eventSchema.ts:28-31 | no issue exactly for 3 or more UTF-16 units, not all whitespace |
| FormSchemas.CategoryIssues | frontend/src/schema/eventSchema.ts:12 | no issue exactly for a non-empty category |
| FormSchemas.DateIssues | frontend/src/schema/eventSchema.ts:20 | no issue exactly for a non-empty date |
| FormSchemas.TimeIssues | frontend/src/schema/eventSchema.ts:22 | no issue exactly for a non-empty time |
| FormSchemas.NumberAtLeast | frontend/src/schema/eventSchema.ts:24-26 | no issue exactly for a number at or above the bound; NaN is refused |
| FormSchemas.PriceIssues | frontend/src/schema/eventSchema.ts:24-26 | no issue exactly for a price of at least 0 |
| FormSchemas.MaxAttendeesIssues | frontend/src/schema/eventSchema.ts:33-35 | no issue exactly for a capacity of at least 1 |
| FormSchemas.AttendeesIssues | frontend/src/schema/eventSchema.ts:37-41 | no issue exactly when absent or at least 0 |
| FormSchemas.JudgesIssues | frontend/src/schema/eventSchema.ts:43 | no issue exactly when every judge name is non-empty |
| FormSchemas.GuestsIssues | frontend/src/schema/eventSchema.ts:45 | no issue exactly when every guest name is non-empty |
| FormSchemas.StatusIssues | frontend/src/schema/eventSchema.ts:49 | no issue exactly for one of the four statuses |
| FormSchemas.EventIssuesIff | frontend/src/schema/eventSchema.ts:3-50 | the form has no issue exactly when every field rule holds |
| FormSchemas.ParseEventForm | frontend/src/schema/eventSchema.ts:3-50 | accepted exactly when every rule holds, and then `attendees` defaults to 0; a rejection lists every issue |
| FormSchemas.BadTitleReportedFirst | frontend/src/schema/eventSchema.ts:6-10 | a bad title is the message shown, whatever else is wrong |
| FormSchemas.PasswordIssues | frontend/src/schema/registerSchema.ts:15-21 | no issue exactly for 8 or more UTF-16 units with an upper-case letter, a lower-case letter, a digit and a character outside [A-Za-z0-9] |
| FormSchemas.NameIssues | frontend/src/schema/registerSchema.ts:4-8 | no issue exactly for 5 to 15 UTF-16 units, not all whitespace |
| FormSchemas.RegisterFormIssuesIff | frontend/src/schema/registerSchema.ts:3-27 | no issue exactly when every field rule holds and the passwords match |
| FormSchemas.MismatchReportedLast | frontend/src/schema/registerSchema.ts:24-27 | a mismatch is the last issue, on `confirmPassword` |
| FormSchemas.LoginFormIssuesIff | frontend/src/schema/loginSchema.ts:3-16 | no issue exactly for a non-empty, well-formed email and a strong password |
| FormSchemas.LoginMessage | frontend/src/schema/loginSchema.ts:3-16 | the message shown: "Email is required", else the format error, else the first failing password rule |
| FormSchemas.RegisteredCredentialsPassLogin | frontend/src/schema/registerSchema.ts:3-27 | credentials the sign-up form accepts pass the sign-in form |
| AuthSlice.Reduce | frontend/src/redux/authSlice.ts:37-44 | `setUser` records exactly the payload's user and token; `clearUser` nulls both |
| AuthSlice.ClearIsIdempotent | frontend/src/redux/authSlice.ts:41-44 | clearing twice is clearing once, and gives the initial state |
| AuthSlice.SetOverwrites | frontend/src/redux/authSlice.ts:37-40 | a new session replaces the previous one entirely |
| AuthSlice.SetThenClear | frontend/src/redux/authSlice.ts:28-44 | signing in then out gives the initial state |
| AuthSlice.LastActionDecides | frontend/src/redux/authSlice.ts:37-44 | after any run of actions the state is decided by the last action alone |
| AuthSlice.ReachableIsConsistent | frontend/src/redux/authSlice.ts:28-44 | user and token are null or non-null together in every reachable state |
| AuthSlice.UserSlice.constructor | frontend/src/redux/authSlice.ts:28-31 | the initial state has user and token null |
| AuthSlice.UserSlice.SetUser | frontend/src/redux/authSlice.ts:37-40 | is `Reduce` with `setUser` on the fields |
| AuthSlice.UserSlice.ClearUser | frontend/src/redux/authSlice.ts:41-44 | is `Reduce` with `clearUser` on the fields |

## Left out

- Floating point. Prices and counts are integers, so `price * 100` is exact and
  fractional prices are not modelled.
- Input types other than those declared. A missing field is modelled, but
  zod's invalid-type issues for a value of the wrong type are not. `NaN` is
  modelled for numbers.
- Errors.MessageOf: for a ZodError, the message a rewrap keeps is the issue
  messages joined by newlines. zod's own text is a JSON rendering of the issues.
- Mongoose's create-time timestamps, schema defaults applied on insert, and
  `populate`. Tickets hold plain ids.
- BSON's other ObjectId inputs (12-byte strings, numbers), and the timestamp
  inside generated ids. Ids come from a counter.
- Concurrency. Webhook deliveries and requests are sequential calls.
- Logging, response writing and dependency injection. A handler's effect is
  given as the reply it sends and the error it forwards.
- Sending headers twice. After a webhook failure the code both replies 400 and
  calls `next`. The model records both and does not model the second response.
- What the foreign functions do inside: the QR image, Stripe's signature check
  and session, JWT expiry, bcrypt salting, mail delivery and zod's email and
  date formats. They appear only as parameters.
- The use cases and controllers that only delegate (update, list and delete
  events, the ticket use cases, user listing and lookup), and the login,
  refresh, password-reset and Google sign-in flows.
- The front end's pages, services and route guards. The event form and the
  sign-in page appear only through the first issue message they show.
