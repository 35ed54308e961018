/** The server's in-memory symptom log (server/routes/symptoms.js): listing,
    and logging a symptom, which appends it with id `length + 1`. Nothing is
    ever removed, so the log stays numbered 1, 2, 3, ... The clock is a
    parameter. */
module SymptomsRoute {
  import opened Js
  import opened Lookup

  datatype SymptomEntry = SymptomEntry(
    id: int,
    description: Value,
    severity: Value,
    patientId: Value,
    duration: Value,
    createdAt: int)

  datatype SymptomBody = SymptomBody(description: Value, severity: Value, patientId: Value, duration: Value)

  function SymptomId(s: SymptomEntry): int { s.id }

  /** The request carries a truthy description and severity. */
  predicate Complete(body: SymptomBody) {
    Truthy(body.description) && Truthy(body.severity)
  }

  /** The check is on truthiness, so a severity of 0 or an empty description
      is refused while any other number or text is accepted. */
  lemma SeverityZeroRefused(body: SymptomBody)
    ensures body.severity == Num(0) || body.description == Str("") ==> !Complete(body)
    ensures (exists n :: n != 0 && body.severity == Num(n)) && (exists d :: d != "" && body.description == Str(d))
      ==> Complete(body)
  {
  }

  class SymptomTable {
    var symptoms: seq<SymptomEntry>

    ghost predicate Valid()
      reads this
    {
      NumberedFromOne(symptoms, SymptomId)
    }

    constructor ()
      ensures Valid() && symptoms == []
    {
      symptoms := [];
    }

    /** GET / */
    method List() returns (all: seq<SymptomEntry>)
      ensures all == symptoms
    {
      all := symptoms;
    }

    /** POST / appends the entry numbered `length + 1`. */
    method Create(body: SymptomBody, now: int) returns (resp: Response<SymptomEntry>)
      requires Valid()
      modifies this
      ensures Valid()
      ensures !Complete(body) ==>
        resp == Failure(400, "Description and severity are required") && symptoms == old(symptoms)
      ensures Complete(body) ==>
        var s := SymptomEntry(|old(symptoms)| + 1, body.description, body.severity, body.patientId, body.duration, now);
        symptoms == old(symptoms) + [s] && resp == Success(201, s)
    {
      if !Truthy(body.description) || !Truthy(body.severity) {
        return Failure(400, "Description and severity are required");
      }
      var s := SymptomEntry(|symptoms| + 1, body.description, body.severity, body.patientId, body.duration, now);
      NumberedAppend(symptoms, SymptomId, s);
      symptoms := symptoms + [s];
      resp := Success(201, s);
    }
  }
}
