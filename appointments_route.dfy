/** The server's in-memory appointment list (server/routes/appointments.js):
    listing, and booking an appointment, which appends it with id
    `length + 1` and the status "scheduled". Nothing is ever removed, so the
    list stays numbered 1, 2, 3, ... The clock is a parameter. */
module AppointmentsRoute {
  import opened Js
  import opened Lookup

  datatype Appointment = Appointment(
    id: int,
    patientId: Value,
    doctorId: Value,
    date: Value,
    time: Value,
    reason: Value,
    status: string,
    createdAt: int)

  datatype AppointmentBody = AppointmentBody(patientId: Value, doctorId: Value, date: Value, time: Value, reason: Value)

  function AppointmentId(a: Appointment): int { a.id }

  /** The request carries a truthy patient, doctor, date and time; the
      reason is optional. */
  predicate Complete(body: AppointmentBody) {
    Truthy(body.patientId) && Truthy(body.doctorId) && Truthy(body.date) && Truthy(body.time)
  }

  /** A booking naming patient 0 is refused like one naming no patient. */
  lemma PatientZeroRefused(body: AppointmentBody)
    requires body.patientId == Num(0)
    ensures !Complete(body)
  {
  }

  class AppointmentTable {
    var appointments: seq<Appointment>

    ghost predicate Valid()
      reads this
    {
      NumberedFromOne(appointments, AppointmentId)
    }

    constructor ()
      ensures Valid() && appointments == []
    {
      appointments := [];
    }

    /** GET / */
    method List() returns (all: seq<Appointment>)
      ensures all == appointments
    {
      all := appointments;
    }

    /** POST / books a scheduled appointment numbered `length + 1`, so it is
        found again under that id. */
    method Create(body: AppointmentBody, now: int) returns (resp: Response<Appointment>)
      requires Valid()
      modifies this
      ensures Valid()
      ensures !Complete(body) ==>
        resp == Failure(400, "Patient ID, doctor ID, date, and time are required")
        && appointments == old(appointments)
      ensures Complete(body) ==>
        var a := Appointment(|old(appointments)| + 1, body.patientId, body.doctorId, body.date, body.time,
                             body.reason, "scheduled", now);
        appointments == old(appointments) + [a] && resp == Success(201, a)
        && FirstIndex(appointments, AppointmentId, a.id) == |old(appointments)|
    {
      if !Truthy(body.patientId) || !Truthy(body.doctorId) || !Truthy(body.date) || !Truthy(body.time) {
        return Failure(400, "Patient ID, doctor ID, date, and time are required");
      }
      var a := Appointment(|appointments| + 1, body.patientId, body.doctorId, body.date, body.time,
                           body.reason, "scheduled", now);
      NumberedAppend(appointments, AppointmentId, a);
      appointments := appointments + [a];
      NumberedLookup(appointments, AppointmentId, a.id);
      resp := Success(201, a);
    }
  }
}
