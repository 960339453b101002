/**
 * The appointment records held in the `appointments` collection, and the two
 * queries the service runs on it: the conflict lookup on
 * (resource_id, date, time) and the lookup by identifier.
 */
module Appointments {
  import opened Wrappers
  import opened ObjectIds

  /** A value read from a JSON body with `.get`: absent or null (None), or a string. */
  type Field = Option<string>

  /** The only status this service writes. */
  const ConfirmedStatus: string := "confirmed"

  datatype Appointment = Appointment(
    id: Oid,
    customerId: Field,
    resourceId: Field,
    date: Field,
    time: Field,
    customerEmail: Field,
    status: string)

  /** `a` occupies the slot (resourceId, date, time); absent values match absent values. */
  predicate OnSlot(a: Appointment, resourceId: Field, date: Field, time: Field) {
    a.resourceId == resourceId && a.date == date && a.time == time
  }

  predicate SameSlot(a: Appointment, b: Appointment) {
    OnSlot(a, b.resourceId, b.date, b.time)
  }

  /** The integrity constraint: no two appointments share a slot. */
  predicate AtMostOnePerSlot(records: seq<Appointment>) {
    forall i, j :: 0 <= i < j < |records| ==> !SameSlot(records[i], records[j])
  }

  predicate DistinctIds(records: seq<Appointment>) {
    forall i, j :: 0 <= i < j < |records| ==> records[i].id != records[j].id
  }

  predicate IdsBelow(records: seq<Appointment>, bound: nat) {
    forall i :: 0 <= i < |records| ==> records[i].id < bound
  }

  /** `find_one({"resource_id": .., "date": .., "time": ..})`: some record on that slot, if any. */
  function FindConflict(records: seq<Appointment>, resourceId: Field, date: Field, time: Field): (found: Option<Appointment>)
    ensures found.Some? ==> found.value in records && OnSlot(found.value, resourceId, date, time)
    ensures found.None? <==> forall a :: a in records ==> !OnSlot(a, resourceId, date, time)
  {
    if records == [] then None
    else if OnSlot(records[0], resourceId, date, time) then Some(records[0])
    else FindConflict(records[1..], resourceId, date, time)
  }

  /** `find_one({"_id": id})`: some record with that identifier, if any. */
  function FindById(records: seq<Appointment>, id: Oid): (found: Option<Appointment>)
    ensures found.Some? ==> found.value in records && found.value.id == id
    ensures found.None? <==> forall a :: a in records ==> a.id != id
  {
    if records == [] then None
    else if records[0].id == id then Some(records[0])
    else FindById(records[1..], id)
  }

  /** With identifiers unique, the lookup by identifier finds exactly the record that carries it. */
  lemma FindByIdFindsRecord(records: seq<Appointment>, a: Appointment)
    requires DistinctIds(records)
    requires a in records
    ensures FindById(records, a.id) == Some(a)
  {
  }
}
