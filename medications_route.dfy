/** The server's in-memory medication list (server/routes/medications.js):
    listing, and adding a medication, which appends it with id
    `length + 1`. Nothing is ever removed, so the list stays numbered
    1, 2, 3, ... The clock is a parameter. */
module MedicationsRoute {
  import opened Js
  import opened Lookup

  datatype Medication = Medication(
    id: int,
    name: Value,
    dosage: Value,
    frequency: Value,
    patientId: Value,
    createdAt: int)

  datatype MedicationBody = MedicationBody(name: Value, dosage: Value, frequency: Value, patientId: Value)

  function MedicationId(m: Medication): int { m.id }

  /** The request carries a truthy name, dosage and frequency; the patient
      is optional. */
  predicate Complete(body: MedicationBody) {
    Truthy(body.name) && Truthy(body.dosage) && Truthy(body.frequency)
  }

  class MedicationTable {
    var medications: seq<Medication>

    ghost predicate Valid()
      reads this
    {
      NumberedFromOne(medications, MedicationId)
    }

    constructor ()
      ensures Valid() && medications == []
    {
      medications := [];
    }

    /** GET / */
    method List() returns (all: seq<Medication>)
      ensures all == medications
    {
      all := medications;
    }

    /** POST / appends the medication numbered `length + 1`. */
    method Create(body: MedicationBody, now: int) returns (resp: Response<Medication>)
      requires Valid()
      modifies this
      ensures Valid()
      ensures !Complete(body) ==>
        resp == Failure(400, "Name, dosage, and frequency are required") && medications == old(medications)
      ensures Complete(body) ==>
        var m := Medication(|old(medications)| + 1, body.name, body.dosage, body.frequency, body.patientId, now);
        medications == old(medications) + [m] && resp == Success(201, m)
    {
      if !Truthy(body.name) || !Truthy(body.dosage) || !Truthy(body.frequency) {
        return Failure(400, "Name, dosage, and frequency are required");
      }
      var m := Medication(|medications| + 1, body.name, body.dosage, body.frequency, body.patientId, now);
      NumberedAppend(medications, MedicationId, m);
      medications := medications + [m];
      resp := Success(201, m);
    }
  }
}
