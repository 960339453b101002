/**
 * The service's database handle: the `appointments` collection with its
 * identifier generator, and the `available_slots` collection, together with
 * the four endpoints that use them. Only `Book` changes anything; the other
 * endpoints have no `modifies` clause and so leave the store as it was.
 *
 * Execution is sequential: each method runs to completion before the next
 * one starts, which is what makes the slot invariant in `Valid` hold.
 */
module Service {
  import opened Wrappers
  import opened ObjectIds
  import opened Appointments
  import opened Booking
  import opened Confirmation
  import opened Lookup
  import opened Slots

  class Database {
    var appointments: seq<Appointment>
    /** The identifier the next inserted appointment receives. */
    var nextId: nat
    var availableSlots: seq<Slot>

    ghost predicate Valid()
      reads this
    {
      StoreInvariant(appointments, nextId)
    }

    /** A database with no appointments and the given, pre-populated slots. */
    constructor (slots: seq<Slot>)
      ensures Valid()
      ensures appointments == [] && nextId == 0 && availableSlots == slots
    {
      appointments := [];
      nextId := 0;
      availableSlots := slots;
    }

    /** `POST /api/appointments`: conflict check, then insert. */
    method Book(req: BookingRequest) returns (resp: BookingResponse)
      requires Valid()
      requires nextId < IdSpace
      modifies this`appointments, this`nextId
      ensures Valid()
      ensures var o := BookOutcome(old(appointments), old(nextId), req);
              appointments == o.appointments && nextId == o.nextId && resp == o.response
    {
      BookingPreservesInvariant(appointments, nextId, req);
      var existing := FindConflict(appointments, req.resourceId, req.date, req.time);
      if existing.Some? {
        resp := Conflict(SlotTakenError);
        return;
      }
      var record := NewAppointment(nextId, req);
      appointments := appointments + [record];
      resp := Created(BookedMessage, IdString(record.id), req.customerId, req.resourceId,
                      req.date, req.time, ConfirmedStatus);
      nextId := nextId + 1;
    }

    /** `POST /api/appointments/confirm`; `mailAccepted` is the outcome of the one mail call. */
    method ConfirmAppointment(arg: IdArg, mailAccepted: bool) returns (outcome: ConfirmOutcome)
      ensures outcome == ConfirmDecision(appointments, arg, mailAccepted)
    {
      outcome := ConfirmDecision(appointments, arg, mailAccepted);
    }

    /** `GET /api/appointments/<appointment_id>`. */
    method GetAppointment(pathId: string) returns (resp: LookupResponse)
      ensures resp == LookupDecision(appointments, pathId)
    {
      resp := LookupDecision(appointments, pathId);
    }

    /**
     * `GET /api/slots/available`: run the query, then turn each result's
     * identifier into text, keeping the order of the query's results.
     */
    method GetAvailableSlots(resourceId: Option<string>) returns (resp: SlotsResponse)
      ensures resp.message == SlotsMessage && resp.resourceId == resourceId
      ensures var found := Find(availableSlots, QueryFor(resourceId));
              |resp.availableSlots| == |found| &&
              forall k :: 0 <= k < |found| ==> resp.availableSlots[k] == View(found[k])
    {
      var cursor := Find(availableSlots, QueryFor(resourceId));
      var slots: seq<SlotView> := [];
      var i := 0;
      while i < |cursor|
        invariant 0 <= i <= |cursor|
        invariant |slots| == i
        invariant forall k :: 0 <= k < i ==> slots[k] == View(cursor[k])
      {
        slots := slots + [View(cursor[i])];
        i := i + 1;
      }
      resp := SlotsResponse(SlotsMessage, resourceId, slots);
    }
  }

  /**
   * Booking a free slot and then confirming the identifier it answered with:
   * the confirmation is accepted with 200, addressed to the booked e-mail, and
   * reports "sent" exactly when the mail service accepted it.
   */
  lemma BookThenConfirm(records: seq<Appointment>, nextId: nat, req: BookingRequest, mailAccepted: bool)
    requires nextId < IdSpace
    requires StoreInvariant(records, nextId)
    requires !SlotTaken(records, req)
    requires HasRecipient(req.customerEmail)
    ensures var o := BookOutcome(records, nextId, req);
            var c := ConfirmDecision(o.appointments, Text(o.response.appointmentId), mailAccepted);
            c.response == Accepted(ConfirmMessage, IdString(nextId), if mailAccepted then StatusSent else StatusFailed) &&
            c.mailed == Some(ConfirmationEmail(IdString(nextId), req.customerEmail.value))
  {
    var o := BookOutcome(records, nextId, req);
    BookedIdFindsAppointment(records, nextId, req);
    BookingPreservesInvariant(records, nextId, req);
    assert o.appointments[|records|] in o.appointments;
    ConfirmFoundAppointment(o.appointments, NewAppointment(nextId, req), IdString(nextId), mailAccepted);
  }

  /** Booking a free slot and then fetching the identifier it answered with finds the appointment. */
  lemma BookThenGet(records: seq<Appointment>, nextId: nat, req: BookingRequest)
    requires nextId < IdSpace
    requires StoreInvariant(records, nextId)
    requires !SlotTaken(records, req)
    ensures var o := BookOutcome(records, nextId, req);
            LookupDecision(o.appointments, o.response.appointmentId) == Details(DetailsMessage, IdString(nextId))
  {
    BookedIdFindsAppointment(records, nextId, req);
  }

  /** A client of the class: the scenario of two identical bookings followed by a confirmation. */
  method BookTwiceThenConfirm(db: Database, req: BookingRequest, mailAccepted: bool)
      returns (first: BookingResponse, second: BookingResponse, confirmation: ConfirmOutcome)
    requires db.Valid()
    requires db.nextId + 1 < IdSpace
    requires !SlotTaken(db.appointments, req)
    requires HasRecipient(req.customerEmail)
    modifies db
    ensures db.Valid()
    ensures db.appointments == old(db.appointments) + [NewAppointment(old(db.nextId), req)]
    ensures db.nextId == old(db.nextId) + 1
    ensures db.availableSlots == old(db.availableSlots)
    ensures first.Code() == 201 && second == Conflict(SlotTakenError)
    ensures confirmation.response.Code() == 200
    ensures confirmation.response.notificationStatus == if mailAccepted then StatusSent else StatusFailed
  {
    ghost var records, id := db.appointments, db.nextId;
    first := db.Book(req);
    RepeatedBookingRejected(records, id, req);
    BookThenConfirm(records, id, req, mailAccepted);
    second := db.Book(req);
    confirmation := db.ConfirmAppointment(Text(first.appointmentId), mailAccepted);
  }
}
