/**
 * The decision of `GET /api/appointments/<appointment_id>`. The path segment
 * is passed to `ObjectId` outside any handler, so text that is not 24
 * hexadecimal digits raises out of the view and the framework answers with
 * its generic server error.
 */
module Lookup {
  import opened Wrappers
  import opened ObjectIds
  import opened Appointments

  const DetailsMessage: string := "Appointment details"
  const NotFoundError: string := "Appointment not found"

  datatype LookupResponse =
    | Details(message: string, appointmentId: string)
    | NotFound(error: string)
    | Unhandled  // `ObjectId` raised; the framework turns it into 500
  {
    /** The HTTP status code the request ends with. */
    function Code(): nat {
      match this
      case Details(_, _) => 200
      case NotFound(_) => 404
      case Unhandled => 500
    }
  }

  /** The lookup decision over a snapshot of the collection; it changes nothing. */
  function LookupDecision(records: seq<Appointment>, pathId: string): (r: LookupResponse)
    ensures r.Unhandled? <==> !WellFormedId(pathId)
    ensures r.Details? <==> WellFormedId(pathId) && exists a :: a in records && Some(a.id) == ParseId(pathId)
    ensures r.Details? ==> r == Details(DetailsMessage, pathId)
    ensures r.NotFound? ==> r == NotFound(NotFoundError)
    ensures r.Code() == 500 <==> !WellFormedId(pathId)
    ensures r.Code() == 200 <==> r.Details?
    ensures r.Code() == 404 <==> r.NotFound?
  {
    match ParseId(pathId)
    case None => Unhandled
    case Some(id) =>
      match FindById(records, id)
      case None => NotFound(NotFoundError)
      case Some(_) => Details(DetailsMessage, pathId)
  }
}
