# Appointment scheduling service: a verified model

This project models the logic of a small appointment-booking web service. It
covers four endpoints:

- `POST /api/appointments` books a slot. It rejects the booking with 409 when
  an appointment already holds the same (`resource_id`, `date`, `time`).
  Otherwise it inserts one appointment with status `confirmed` and answers 201
  with the new identifier.
- `POST /api/appointments/confirm` checks the identifier, looks the appointment
  up and requires a recipient address. It then builds the confirmation e-mail,
  hands it to the mail service once and answers 200. The answer says `"sent"`
  or `"failed"`.
- `GET /api/appointments/<id>` looks an appointment up by identifier.
- `GET /api/slots/available` lists the pre-populated slots, filtered by
  `resource_id` when a non-empty one is given.

The two MongoDB collections are sequences held by the class
`Service.Database`. That class also holds a counter that hands out fresh
identifiers. `Book` is the only method that changes state. The other endpoints
have no `modifies` clause, so they cannot touch the store. Their decisions are
pure functions over a snapshot of the collection: `ConfirmDecision`,
`LookupDecision` and `Find`.

Files and modules:

- `wrappers.dfy` (`Wrappers`): `Option`.
- `object_ids.dfy` (`ObjectIds`): ObjectIds and their text form. The text form
  is 24 hexadecimal digits. Parsing accepts either letter case. Printing uses
  lower case.
- `appointments.dfy` (`Appointments`): the appointment record, the slot
  invariant, the conflict query and the lookup by identifier.
- `booking.dfy` (`Booking`): the booking rule as a function on the store, and
  its lemmas.
- `confirmation.dfy` (`Confirmation`): the confirmation cascade and the e-mail
  payload.
- `lookup.dfy` (`Lookup`): the lookup endpoint's decision.
- `slots.dfy` (`Slots`): the slot query and its results in stored order.
- `service.dfy` (`Service`): the `Database` class, its endpoint methods and
  end-to-end lemmas.

Values read from a JSON body with `.get` are modelled as `Option<string>`, with
`None` for absent or null. A MongoDB equality query on `None` matches records
whose field is null. Every record this service inserts carries all its keys,
so that query is plain equality on `Option`.

The model answers as the code does:

- A malformed identifier on `GET /api/appointments/<id>` is not caught
  (app.py:147). It raises out of the view, and the framework answers with a
  server error. The model returns `Unhandled`, with code 500.
- When `appointment_id` is missing from the confirm request, `ObjectId(None)`
  generates a brand-new identifier (app.py:108). No stored record has that
  identifier, so the answer is 404 (app.py:111-112). A non-string value is
  rejected by `ObjectId` and gives 400 (app.py:109-110).
- The confirm endpoint answers 200, whatever the mail outcome (app.py:135-139).
  The subject field of the payload is named `subject_line` (app.py:121).

## Model

| member | source | states |
|---|---|---|
| `ObjectIds.ParseId` | app.py:108 | `ObjectId(text)` succeeds exactly on 24-hexadecimal-digit text |
| `ObjectIds.IdString` | app.py:83 | `str(oid)` is 24 lower-case hexadecimal digits, a text `ObjectId` accepts |
| `ObjectIds.IdStringRoundTrip` | app.py:83 | the printed form of an identifier parses back to that identifier |
| `ObjectIds.IdStringInjective` | app.py:83 | distinct identifiers print as distinct text |
| `ObjectIds.ParseIdIgnoresCase` | app.py:108 | upper- and lower-case spellings of an identifier parse to the same identifier |
| `ObjectIds.HexOfParseHex` | app.py:108 | printing the number a digit string spells gives back that string in lower case |
| `ObjectIds.ParseIdThenPrint` | app.py:108 | a well-formed text parses to the identifier whose printed form is the text in lower case |
| `ObjectIds.TextNamesId` | app.py:108 | a text parses to identifier `id` exactly when it is well formed and spells `str(id)` in either case |
| `Appointments.FindConflict` | app.py:63-67 | the conflict query returns a stored record on the requested slot, or none exactly when no stored record is on it |
| `Appointments.FindById` | app.py:108 | the identifier query returns a stored record with that identifier, or none exactly when no record has it |
| `Appointments.FindByIdFindsRecord` | app.py:108 | with unique identifiers, looking up a stored record's identifier returns that record |
| `Booking.BookOutcome` | app.py:63-89 | a taken slot gives 409 "Slot already booked" and leaves records and counter unchanged; a free slot keeps every earlier record, adds exactly one confirmed record with the request's fields and the fresh id, and gives 201 echoing the fields and the id text |
| `Booking.BookingPreservesInvariant` | app.py:63-79 | accepted or rejected, a booking keeps at most one appointment per slot, unique ids and ids below the counter |
| `Booking.RepeatedBookingRejected` | app.py:63-89 | two identical bookings in a row on a free slot: the first gives 201, the second gives 409 and changes nothing |
| `Booking.BookedIdFindsAppointment` | app.py:72-83 | the id text a successful booking answers with parses to the new id, and looking that id up returns the inserted record |
| `Confirmation.ConfirmationEmail` | app.py:119-124 | the payload goes to `[customer_email]`, has the fixed subject, is not HTML, and its body gives back the appointment id text |
| `Confirmation.ConfirmDecision` | app.py:103-139 | 400 exactly for a non-string or malformed id; 404 exactly for an absent id or no matching record; 400 only for a found record without an address; 200 echoes the id text, says "sent" exactly when the mail call succeeded, and is the only outcome with a mail call, whose payload goes to the record's address |
| `Confirmation.ConfirmFoundAppointment` | app.py:114-139 | a stored record with a non-empty address is always confirmed with 200, with "sent" or "failed" following the mail outcome |
| `Confirmation.ConfirmWithoutRecipient` | app.py:114-116 | a stored record whose address is absent or empty gives 400 and makes no mail call |
| `Confirmation.MailOutcomeOnlySetsStatus` | app.py:127-139 | the mail outcome changes only `notification_status`: the status code and the payload sent are the same either way |
| `Lookup.LookupDecision` | app.py:141-154 | a malformed id raises, and the status is 500 exactly then; a well-formed id gives 200 echoing the id exactly when some record has it, and 404 "Appointment not found" otherwise |
| `Slots.View` | app.py:40 | a returned slot carries its id as text that parses back to the stored id, and every other field unchanged |
| `Slots.QueryFor` | app.py:34-36 | the query filters on `resource_id` exactly when one is given and non-empty |
| `Slots.Find` | app.py:36-37 | every slot the query returns is stored and matches the query, and there are no more results than stored slots |
| `Slots.MatchingIndices` | app.py:37 | the positions of matching slots, strictly increasing, containing every position whose slot matches |
| `Slots.FindInStoredOrder` | app.py:36-41 | the query's k-th result is the stored slot at the k-th matching position, so it returns every matching slot once, in stored order |
| `Slots.FindAllReturnsEverySlot` | app.py:36-37 | with no filter, the query returns every stored slot in order |
| `Service.Database.constructor` | app.py:21-22 | a fresh database has no appointments, the given slots and a counter at zero |
| `Service.Database.Book` | app.py:48-89 | the new records, counter and response are those of `BookOutcome` on the old state; the store invariant is kept and the slots are untouched |
| `Service.Database.ConfirmAppointment` | app.py:95-139 | answers with `ConfirmDecision` on the current records and modifies nothing |
| `Service.Database.GetAppointment` | app.py:141-154 | answers with `LookupDecision` on the current records and modifies nothing |
| `Service.Database.GetAvailableSlots` | app.py:28-46 | returns the query's results in order, each with its id as text, echoes `resource_id`, and modifies nothing |
| `Service.BookThenConfirm` | app.py:72-139 | confirming the id text of a booking with an address gives 200 with a payload to that address, and "sent" exactly when the mail call succeeded |
| `Service.BookThenGet` | app.py:141-154 | looking up the id text of a successful booking gives 200 with that id |
| `Service.BookTwiceThenConfirm` | app.py:48-139 | through the class: the first of two identical bookings gives 201 and the second 409; afterwards the store is valid and holds exactly one new confirmed record, the counter has advanced by one, the slots are untouched, and confirming the first booking gives 200 |

## Left out

- Flask routing, request parsing, `jsonify` and the HTTP encoding are framework code. Responses are datatypes holding a status code and the response fields.
- The `/health` endpoint holds no logic.
- CORS setup, environment variables, the mail service URL and the listening port are configuration.
- The MongoDB client is a foreign library. The collections are in-memory sequences, and storage failures are not modelled.
- The e-mail POST is a network call. Only its outcome is modelled, as the boolean `mailAccepted`. A failure raised while reading the mail URL counts as a failed call too.
- ObjectId generation (timestamp, random bytes, counter) is foreign code. A counter in `Database` produces fresh identifiers instead.
- Service.Database.Book: requires the counter to be below 2^96, the number of ObjectIds. The source's generator has no such bound.
- Booking.BookOutcome: requires the counter to be below 2^96, for the same reason.
- Concurrency is not modelled. The sequential model cannot show the race between the conflict check and the insert. With two concurrent bookings of one slot, both can pass the check and both can insert.
- JSON values other than strings and absent/null in booking fields (numbers, lists, objects) are not modelled. For the confirm identifier, non-strings are modelled by one case, `NotText`.
- `bytes.fromhex` skips whitespace between digit pairs. That lets some 24-character strings with spaces through `ObjectId`. The model accepts exactly 24 hexadecimal digits.
- A request body that is not JSON makes `request.get_json` fail before the handlers run. That case is framework behaviour and is not modelled.
