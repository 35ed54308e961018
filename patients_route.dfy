/** The server's in-memory patient table (server/routes/patients.js): create,
    read, update and delete on a module-level array. Ids are
    `patients.length + 1` when a record is created, so after a delete two
    records can share an id; lookups then find the first. The clock is a
    parameter and `parseInt(req.params.id)` arrives already parsed. */
module PatientsRoute {
  import opened Js
  import opened Lookup

  datatype Patient = Patient(
    id: int,
    name: Value,
    email: Value,
    age: Value,
    gender: Value,
    medicalHistory: Value,
    createdAt: int,
    updatedAt: int)

  /** The fields a client may send. */
  datatype PatientBody = PatientBody(name: Value, email: Value, age: Value, gender: Value, medicalHistory: Value)

  function PatientId(p: Patient): int { p.id }

  /** The record PUT makes: every sent field that is truthy replaces the
      stored one, every other field is kept, and the update time moves. */
  function Revised(p: Patient, body: PatientBody, now: int): (r: Patient)
    ensures r.id == p.id && r.createdAt == p.createdAt && r.updatedAt == now
    ensures r.name == (if Truthy(body.name) then body.name else p.name)
    ensures r.email == (if Truthy(body.email) then body.email else p.email)
    ensures r.age == (if Truthy(body.age) then body.age else p.age)
    ensures r.gender == (if Truthy(body.gender) then body.gender else p.gender)
    ensures r.medicalHistory == (if Truthy(body.medicalHistory) then body.medicalHistory else p.medicalHistory)
  {
    p.(name := Or(body.name, p.name),
       email := Or(body.email, p.email),
       age := Or(body.age, p.age),
       gender := Or(body.gender, p.gender),
       medicalHistory := Or(body.medicalHistory, p.medicalHistory),
       updatedAt := now)
  }

  /** A PUT that sends nothing truthy only moves the update time. */
  lemma FalsyRevisionKeepsFields(p: Patient, body: PatientBody, now: int)
    requires !Truthy(body.name) && !Truthy(body.email) && !Truthy(body.age)
    requires !Truthy(body.gender) && !Truthy(body.medicalHistory)
    ensures Revised(p, body, now) == p.(updatedAt := now)
  {
  }

  class PatientTable {
    var patients: seq<Patient>

    constructor ()
      ensures patients == []
    {
      patients := [];
    }

    /** GET / */
    method List() returns (all: seq<Patient>)
      ensures all == patients
    {
      all := patients;
    }

    /** GET /:id answers the first record with that id. */
    method Get(id: int) returns (resp: Response<Patient>)
      ensures var i := FirstIndex(patients, PatientId, id);
        (i == -1 ==> resp == Failure(404, "Patient not found"))
        && (i >= 0 ==> resp == Success(200, patients[i]))
    {
      var i := FindIndex(patients, PatientId, id);
      if i == -1 {
        return Failure(404, "Patient not found");
      }
      resp := Success(200, patients[i]);
    }

    /** POST / needs a truthy name and email; the new record goes last with
        id `length + 1` and an empty history when none is sent. */
    method Create(body: PatientBody, now: int) returns (resp: Response<Patient>)
      modifies this
      ensures !Truthy(body.name) || !Truthy(body.email) ==>
        resp == Failure(400, "Name and email are required") && patients == old(patients)
      ensures Truthy(body.name) && Truthy(body.email) ==>
        var p := Patient(|old(patients)| + 1, body.name, body.email, body.age, body.gender,
                         Or(body.medicalHistory, Arr([])), now, now);
        patients == old(patients) + [p] && resp == Success(201, p)
    {
      if !Truthy(body.name) || !Truthy(body.email) {
        return Failure(400, "Name and email are required");
      }
      var p := Patient(|patients| + 1, body.name, body.email, body.age, body.gender,
                       Or(body.medicalHistory, Arr([])), now, now);
      patients := patients + [p];
      resp := Success(201, p);
    }

    /** PUT /:id revises the first record with that id and no other. */
    method Update(id: int, body: PatientBody, now: int) returns (resp: Response<Patient>)
      modifies this
      ensures var i := FirstIndex(old(patients), PatientId, id);
        (i == -1 ==> resp == Failure(404, "Patient not found") && patients == old(patients))
        && (i >= 0 ==>
              patients == old(patients)[i := Revised(old(patients)[i], body, now)]
              && resp == Success(200, patients[i]))
    {
      var i := FindIndex(patients, PatientId, id);
      if i == -1 {
        return Failure(404, "Patient not found");
      }
      patients := patients[i := Revised(patients[i], body, now)];
      resp := Success(200, patients[i]);
    }

    /** DELETE /:id removes the first record with that id, keeping the rest
        in order. */
    method Delete(id: int) returns (resp: Response<string>)
      modifies this
      ensures var i := FirstIndex(old(patients), PatientId, id);
        (i == -1 ==> resp == Failure(404, "Patient not found") && patients == old(patients))
        && (i >= 0 ==>
              patients == old(patients)[..i] + old(patients)[i + 1..]
              && resp == Success(200, "Patient deleted successfully"))
    {
      var i := FindIndex(patients, PatientId, id);
      if i == -1 {
        return Failure(404, "Patient not found");
      }
      patients := patients[..i] + patients[i + 1..];
      resp := Success(200, "Patient deleted successfully");
    }
  }

  /** On a fresh table, create two patients and delete the first: the
      second remains alone, numbered 2. */
  method CreateTwoDeleteFirst(first: PatientBody, second: PatientBody, now: int)
    returns (table: PatientTable, older: Patient)
    requires Truthy(first.name) && Truthy(first.email)
    requires Truthy(second.name) && Truthy(second.email)
    ensures fresh(table)
    ensures table.patients == [older] && older.id == 2 && older.name == second.name
  {
    table := new PatientTable();
    var r1 := table.Create(first, now);
    var r2 := table.Create(second, now);
    older := r2.body;
    assert table.patients == [r1.body, older] && r1.body.id == 1;
    assert FirstIndex(table.patients, PatientId, 1) == 0;
    var gone := table.Delete(1);
  }

  /** On a fresh table, create two patients, delete the first and create a
      third: the third is numbered 2 like the one that remains, the table
      holds both, and GET 2 then answers the older record. */
  method DeleteThenCreateRepeatsId(first: PatientBody, second: PatientBody, third: PatientBody, now: int)
    returns (older: Patient, newer: Patient, all: seq<Patient>, found: Response<Patient>)
    requires Truthy(first.name) && Truthy(first.email)
    requires Truthy(second.name) && Truthy(second.email)
    requires Truthy(third.name) && Truthy(third.email)
    ensures older.id == 2 && newer.id == 2 && all == [older, newer]
    ensures older.name == second.name && newer.name == third.name
    ensures found == Success(200, older)
  {
    var table;
    table, older := CreateTwoDeleteFirst(first, second, now);
    var r3 := table.Create(third, now);
    newer := r3.body;
    assert table.patients == [older, newer];
    assert FirstIndex(table.patients, PatientId, 2) == 0;
    all := table.List();
    found := table.Get(2);
  }
}
