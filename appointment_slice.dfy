/** The appointment store: the state of the `appointments` slice and its
    reducers, each of which updates the state in place. */
module AppointmentSlice {
  import opened Wrappers
  import opened Js
  import opened Appointments

  class AppointmentStore {
    var appointments: seq<Appointment>
    var selectedAppointment: Option<Appointment>
    /** Whatever the availability payload holds; the reducers never look inside. */
    var doctorAvailability: seq<Value>
    var loading: bool
    var error: Option<string>

    /** The initial state. */
    constructor ()
      ensures appointments == [] && selectedAppointment == None
      ensures doctorAvailability == [] && !loading && error == None
    {
      appointments := [];
      selectedAppointment := None;
      doctorAvailability := [];
      loading := false;
      error := None;
    }

    /** `fetchAppointmentsRequest`: only the two flags change. */
    method FetchAppointmentsRequest()
      modifies this`loading, this`error
      ensures loading && error == None
    {
      loading := true;
      error := None;
    }

    /** `fetchAppointmentsSuccess`: the list is replaced wholesale. */
    method FetchAppointmentsSuccess(payload: seq<Appointment>)
      modifies this`loading, this`appointments, this`error
      ensures appointments == payload && !loading && error == None
    {
      loading := false;
      appointments := payload;
      error := None;
    }

    /** `createAppointmentRequest`: only the two flags change. */
    method CreateAppointmentRequest()
      modifies this`loading, this`error
      ensures loading && error == None
    {
      loading := true;
      error := None;
    }

    /** `createAppointmentSuccess`: the payload is pushed at the end, whether
        or not its id is already present. */
    method CreateAppointmentSuccess(payload: Appointment)
      modifies this`loading, this`appointments, this`error
      ensures appointments == old(appointments) + [payload]
      ensures !loading && error == None
    {
      loading := false;
      appointments := appointments + [payload];
      error := None;
    }

    /** `updateAppointmentStatus`: the first record with the id gets the new
        status and `updatedAt := now`; an unknown id changes no record. The
        flags are reset either way. */
    method UpdateAppointmentStatus(id: string, status: Status, now: string)
      modifies this`loading, this`appointments, this`error
      ensures !loading && error == None
      ensures appointments == StatusUpdated(old(appointments), id, status, now)
      ensures |appointments| == |old(appointments)|
      ensures forall i :: IsFirstMatch(old(appointments), id, i) ==>
        appointments[i] == old(appointments)[i].(status := status, updatedAt := Some(now))
      ensures forall j :: 0 <= j < |appointments| && !IsFirstMatch(old(appointments), id, j) ==>
        appointments[j] == old(appointments)[j]
    {
      loading := false;
      var index := FindIndex(appointments, id);
      if index.Some? {
        var i := index.value;
        appointments := appointments[i := appointments[i].(status := status)];
        appointments := appointments[i := appointments[i].(updatedAt := Some(now))];
      }
      error := None;
    }

    /** `selectAppointment`: the first record with that id, or `null`. */
    method SelectAppointment(id: string)
      modifies this`selectedAppointment
      ensures selectedAppointment == FindById(appointments, id)
    {
      selectedAppointment := FindById(appointments, id);
    }

    /** `fetchDoctorAvailabilityRequest`: only the two flags change. */
    method FetchDoctorAvailabilityRequest()
      modifies this`loading, this`error
      ensures loading && error == None
    {
      loading := true;
      error := None;
    }

    /** `fetchDoctorAvailabilitySuccess`. */
    method FetchDoctorAvailabilitySuccess(payload: seq<Value>)
      modifies this`loading, this`doctorAvailability, this`error
      ensures doctorAvailability == payload && !loading && error == None
    {
      loading := false;
      doctorAvailability := payload;
      error := None;
    }

    /** `appointmentFailure`: records the reason; list and selection stay. */
    method AppointmentFailure(payload: Option<string>)
      modifies this`loading, this`error
      ensures !loading && error == payload
    {
      loading := false;
      error := payload;
    }

    /** `clearSelectedAppointment`. */
    method ClearSelectedAppointment()
      modifies this`selectedAppointment
      ensures selectedAppointment == None
    {
      selectedAppointment := None;
    }

    /** `fetchAppointments` (the demo action): replaces the list and leaves
        `loading` and `error` as they were. */
    method FetchAppointments(payload: seq<Appointment>)
      modifies this`appointments
      ensures appointments == payload
    {
      appointments := payload;
    }
  }

  /** What `updateAppointmentStatus` does to the list, as a value: used to
      state facts about the method's effect. */
  function StatusUpdated(list: seq<Appointment>, id: string, status: Status, now: string): seq<Appointment> {
    match FindIndex(list, id)
    case None => list
    case Some(i) => list[i := list[i].(status := status, updatedAt := Some(now))]
  }

  /** Only the first record with the id changes, and in that record only
      `status` and `updatedAt`; every other record, and every other field of
      the changed one, stays as it was. With an absent id the list is
      returned unchanged. */
  lemma StatusUpdateFrame(list: seq<Appointment>, id: string, status: Status, now: string)
    ensures |StatusUpdated(list, id, status, now)| == |list|
    ensures (forall j :: 0 <= j < |list| ==> list[j].id != id) ==> StatusUpdated(list, id, status, now) == list
    ensures forall j :: 0 <= j < |list| ==>
      var r := StatusUpdated(list, id, status, now)[j];
      r.(status := list[j].status, updatedAt := list[j].updatedAt) == list[j]
    ensures forall i :: IsFirstMatch(list, id, i) ==>
      StatusUpdated(list, id, status, now)[i] == list[i].(status := status, updatedAt := Some(now))
    ensures forall j :: 0 <= j < |list| && StatusUpdated(list, id, status, now)[j] != list[j] ==>
      list[j].id == id && (forall k :: 0 <= k < j ==> list[k].id != id) &&
      StatusUpdated(list, id, status, now)[j].status == status &&
      StatusUpdated(list, id, status, now)[j].updatedAt == Some(now)
  {
  }
}
