/** The appointment record held by the store and produced by the mock
    generator, and the first-match lookups (`findIndex`, `find`) that the
    store and the access layer both use. */
module Appointments {
  import opened Wrappers

  datatype Status = Scheduled | Completed | Cancelled | NoShow

  /** The record's `type` field. */
  datatype Category = Consultation | FollowUp | CheckUp | Emergency

  /** A doctor as embedded in an appointment (the numeric `rating` is not
      modelled). */
  datatype Doctor = Doctor(id: string, name: string, specialty: string, profileImage: string)

  /** `date` is an ISO `YYYY-MM-DD` string and `time` an `HH:MM` string; the
      record embeds a copy of its doctor. */
  datatype Appointment = Appointment(
    id: string,
    patientId: string,
    doctorId: string,
    doctor: Doctor,
    date: string,
    time: string,
    status: Status,
    category: Category,
    notes: Option<string>,
    symptoms: Option<seq<string>>,
    createdAt: string,
    updatedAt: Option<string>)

  /** `list.findIndex(app => app.id === id)`, with -1 as `None`. */
  function FindIndex(list: seq<Appointment>, id: string): (r: Option<nat>)
    ensures r.Some? ==> r.value < |list| && list[r.value].id == id
    ensures r.Some? ==> forall j :: 0 <= j < r.value ==> list[j].id != id
    ensures r.None? <==> forall j :: 0 <= j < |list| ==> list[j].id != id
  {
    if list == [] then None
    else if list[0].id == id then Some(0)
    else match FindIndex(list[1..], id)
      case None => None
      case Some(i) => Some(i + 1)
  }

  /** `list[i]` is the first record whose id is `id`. */
  predicate IsFirstMatch(list: seq<Appointment>, id: string, i: int) {
    0 <= i < |list| && list[i].id == id && forall j :: 0 <= j < i ==> list[j].id != id
  }

  /** `list.find(app => app.id === id)`: the first record with that id. */
  function FindById(list: seq<Appointment>, id: string): (r: Option<Appointment>)
    ensures r.None? <==> forall j :: 0 <= j < |list| ==> list[j].id != id
    ensures r.Some? ==> r.value.id == id
    ensures r.Some? ==> exists i :: IsFirstMatch(list, id, i) && list[i] == r.value
  {
    match FindIndex(list, id)
    case None => None
    case Some(i) => assert IsFirstMatch(list, id, i); Some(list[i])
  }
}
