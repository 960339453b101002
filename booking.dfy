/**
 * The booking rule of `POST /api/appointments`: look for an appointment on the
 * requested (resource_id, date, time); if there is one, answer 409 and insert
 * nothing, otherwise insert one confirmed appointment under a fresh identifier
 * and answer 201.
 *
 * The check and the insert are two separate steps with no lock between them,
 * so the uniqueness facts proved here hold for bookings executed one after
 * another only; two concurrent bookings of one slot can both pass the check.
 */
module Booking {
  import opened Wrappers
  import opened ObjectIds
  import opened Appointments

  const BookedMessage: string := "Appointment booked successfully"
  const SlotTakenError: string := "Slot already booked"

  /** The five fields read from the request body. */
  datatype BookingRequest = BookingRequest(
    customerId: Field,
    resourceId: Field,
    date: Field,
    time: Field,
    customerEmail: Field)

  datatype BookingResponse =
    | Created(
        message: string,
        appointmentId: string,
        customerId: Field,
        resourceId: Field,
        date: Field,
        time: Field,
        status: string)
    | Conflict(error: string)
  {
    /** The HTTP status code the handler answers with. */
    function Code(): nat {
      if Created? then 201 else 409
    }
  }

  /** The document inserted for a successful booking. */
  function NewAppointment(id: Oid, req: BookingRequest): Appointment {
    Appointment(id, req.customerId, req.resourceId, req.date, req.time, req.customerEmail, ConfirmedStatus)
  }

  /** Some stored appointment already occupies the requested slot. */
  predicate SlotTaken(records: seq<Appointment>, req: BookingRequest) {
    exists a :: a in records && OnSlot(a, req.resourceId, req.date, req.time)
  }

  /**
   * What the store holds before a booking, in this sequential model: at most
   * one appointment per slot, unique identifiers, all below the next fresh one.
   */
  predicate StoreInvariant(records: seq<Appointment>, nextId: nat) {
    AtMostOnePerSlot(records) && DistinctIds(records) && IdsBelow(records, nextId)
  }

  /** The collection and identifier counter after a booking, with the response. */
  datatype BookingOutcome = BookingOutcome(appointments: seq<Appointment>, nextId: nat, response: BookingResponse)

  /** One booking against the collection `records`, whose next fresh identifier is `nextId`. */
  function BookOutcome(records: seq<Appointment>, nextId: nat, req: BookingRequest): (o: BookingOutcome)
    requires nextId < IdSpace
    ensures SlotTaken(records, req) ==>
      o.response == Conflict(SlotTakenError) && o.response.Code() == 409 &&
      o.appointments == records && o.nextId == nextId
    ensures !SlotTaken(records, req) ==>
      o.response.Code() == 201 &&
      |o.appointments| == |records| + 1 &&
      o.appointments[..|records|] == records &&
      o.appointments[|records|] == NewAppointment(nextId, req) &&
      o.nextId == nextId + 1 &&
      o.response == Created(BookedMessage, IdString(nextId), req.customerId, req.resourceId,
                            req.date, req.time, ConfirmedStatus)
  {
    match FindConflict(records, req.resourceId, req.date, req.time)
    case Some(_) => BookingOutcome(records, nextId, Conflict(SlotTakenError))
    case None =>
      BookingOutcome(records + [NewAppointment(nextId, req)], nextId + 1,
                     Created(BookedMessage, IdString(nextId), req.customerId, req.resourceId,
                             req.date, req.time, ConfirmedStatus))
  }

  /** Every booking, accepted or rejected, keeps the store invariant. */
  lemma BookingPreservesInvariant(records: seq<Appointment>, nextId: nat, req: BookingRequest)
    requires nextId < IdSpace
    requires StoreInvariant(records, nextId)
    ensures StoreInvariant(BookOutcome(records, nextId, req).appointments, BookOutcome(records, nextId, req).nextId)
  {
  }

  /** Booking the same slot twice in a row: the first call is accepted, the second rejected and ineffective. */
  lemma RepeatedBookingRejected(records: seq<Appointment>, nextId: nat, req: BookingRequest)
    requires nextId + 1 < IdSpace
    requires !SlotTaken(records, req)
    ensures var first := BookOutcome(records, nextId, req);
            var second := BookOutcome(first.appointments, first.nextId, req);
            first.response.Code() == 201 &&
            second.response == Conflict(SlotTakenError) &&
            second.appointments == first.appointments && second.nextId == first.nextId
  {
    var first := BookOutcome(records, nextId, req);
    assert first.appointments[|records|] in first.appointments;
  }

  /**
   * The identifier a successful booking answers with names the inserted
   * appointment: parsing it and looking it up finds that record.
   */
  lemma BookedIdFindsAppointment(records: seq<Appointment>, nextId: nat, req: BookingRequest)
    requires nextId < IdSpace
    requires StoreInvariant(records, nextId)
    requires !SlotTaken(records, req)
    ensures var o := BookOutcome(records, nextId, req);
            o.response.Created? &&
            ParseId(o.response.appointmentId) == Some(nextId) &&
            FindById(o.appointments, nextId) == Some(NewAppointment(nextId, req))
  {
    var o := BookOutcome(records, nextId, req);
    IdStringRoundTrip(nextId);
    BookingPreservesInvariant(records, nextId, req);
    assert o.appointments[|records|] in o.appointments;
    FindByIdFindsRecord(o.appointments, NewAppointment(nextId, req));
  }
}
