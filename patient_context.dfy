/** The client's patient-profile state (client/src/contexts/PatientContext.jsx):
    its reducer, the rule that decides when the provider fetches or clears
    the profile, and the two dispatches of a fetch. The fetch itself (an
    HTTP call) is an outcome given as a parameter. */
module PatientContext {
  import opened Js

  /** The fields of a patient profile object. */
  type Fields = map<string, Value>

  datatype PatientState = PatientState(patient: Option<Fields>, isLoading: bool, error: Value)

  datatype PatientAction =
    | FetchPatientStart
    | FetchPatientSuccess(profile: Option<Fields>)
    | FetchPatientFailure(message: Value)
    | UpdatePatient(changes: Fields)
    | ClearPatient
    /** Any action type other than the five above; the reducer never sees a
        known type under this constructor. */
    | Unrecognized(kind: string)

  const InitialState := PatientState(None, true, Null)

  function PatientReducer(state: PatientState, action: PatientAction): PatientState {
    match action
    case FetchPatientStart => state.(isLoading := true, error := Null)
    case FetchPatientSuccess(profile) => state.(patient := profile, isLoading := false, error := Null)
    case FetchPatientFailure(message) => state.(patient := None, isLoading := false, error := message)
    case UpdatePatient(changes) => state.(patient := Some(Merge(state.patient, changes)))
    case ClearPatient => state.(patient := None, isLoading := false, error := Null)
    case Unrecognized(_) => state
  }

  /** FETCH_PATIENT_START starts loading and clears the error, keeping the
      profile already shown. */
  lemma FetchStartKeepsProfile(s: PatientState)
    ensures var r := PatientReducer(s, FetchPatientStart);
      r.isLoading && r.error == Null && r.patient == s.patient
  {
  }

  /** FETCH_PATIENT_SUCCESS shows the fetched profile; FETCH_PATIENT_FAILURE
      drops the profile and records the error. Both stop loading. */
  lemma FetchOutcomes(s: PatientState, profile: Option<Fields>, message: Value)
    ensures PatientReducer(s, FetchPatientSuccess(profile)) == PatientState(profile, false, Null)
    ensures PatientReducer(s, FetchPatientFailure(message)) == PatientState(None, false, message)
  {
  }

  /** UPDATE_PATIENT lays the changes over the profile and leaves the loading
      flag and the error alone. */
  lemma UpdatePatientMerges(s: PatientState, changes: Fields)
    ensures var r := PatientReducer(s, UpdatePatient(changes));
      r.patient.Some?
      && (forall k :: k in changes ==> k in r.patient.value && r.patient.value[k] == changes[k])
      && (s.patient.Some? ==> forall k :: k in s.patient.value && k !in changes ==>
            k in r.patient.value && r.patient.value[k] == s.patient.value[k])
      && (forall k :: k in r.patient.value ==> k in changes || (s.patient.Some? && k in s.patient.value))
      && r.isLoading == s.isLoading && r.error == s.error
  {
  }

  /** CLEAR_PATIENT empties the state, from any state; any other action type
      changes nothing. */
  lemma ClearAndUnrecognized(s: PatientState, kind: string)
    ensures PatientReducer(s, ClearPatient) == PatientState(None, false, Null)
    ensures PatientReducer(s, Unrecognized(kind)) == s
  {
  }

  /** What the provider's effect does when the session changes. */
  datatype Trigger = Fetch | Clear | Nothing

  /** `user?.role === 'patient'` */
  predicate IsPatient(user: Option<Fields>) {
    user.Some? && "role" in user.value && user.value["role"] == Str("patient")
  }

  /** Fetch for an authenticated patient, clear when signed out, and do
      nothing for any other signed-in user. */
  function PatientEffect(isAuthenticated: bool, user: Option<Fields>): (t: Trigger)
    ensures t == Fetch <==> isAuthenticated && IsPatient(user)
    ensures t == Clear <==> !isAuthenticated
    ensures t == Nothing <==> isAuthenticated && !IsPatient(user)
  {
    if isAuthenticated && IsPatient(user) then Fetch
    else if !isAuthenticated then Clear
    else Nothing
  }

  /** The outcome of asking the server for the profile. */
  datatype FetchOutcome = Fetched(profile: Option<Fields>) | FetchError(message: Value)

  /** The dispatch `fetchPatientData` makes once the server has answered:
      the success or the failure. */
  function FetchFinish(s: PatientState, outcome: FetchOutcome): PatientState {
    match outcome
    case Fetched(profile) => PatientReducer(s, FetchPatientSuccess(profile))
    case FetchError(message) => PatientReducer(s, FetchPatientFailure(message))
  }

  /** `fetchPatientData` with nothing dispatched during its `await`:
      FETCH_PATIENT_START, then the finishing dispatch. */
  function FetchPatientData(s: PatientState, outcome: FetchOutcome): PatientState {
    FetchFinish(PatientReducer(s, FetchPatientStart), outcome)
  }

  /** A fetch always ends loaded; it ends with the profile and no error when
      the server answered, and with no profile and the message otherwise. */
  lemma FetchEndsLoaded(s: PatientState, outcome: FetchOutcome)
    ensures !FetchPatientData(s, outcome).isLoading
    ensures outcome.Fetched? ==> FetchPatientData(s, outcome) == PatientState(outcome.profile, false, Null)
    ensures outcome.FetchError? ==> FetchPatientData(s, outcome) == PatientState(None, false, outcome.message)
  {
  }

  /** The state the effect leaves behind, given how the fetch would end. */
  function OnSessionChange(s: PatientState, isAuthenticated: bool, user: Option<Fields>, outcome: FetchOutcome): PatientState {
    match PatientEffect(isAuthenticated, user)
    case Fetch => FetchPatientData(s, outcome)
    case Clear => PatientReducer(s, ClearPatient)
    case Nothing => s
  }

  /** After signing out no profile is held; a signed-in user who is not a
      patient keeps whatever state there was. */
  lemma SessionChangeOutcomes(s: PatientState, user: Option<Fields>, outcome: FetchOutcome)
    ensures OnSessionChange(s, false, user, outcome) == PatientState(None, false, Null)
    ensures !IsPatient(user) ==> OnSessionChange(s, true, user, outcome) == s
    ensures IsPatient(user) ==> !OnSessionChange(s, true, user, outcome).isLoading
  {
  }

  /** The provider starts loading with no profile. A first session change
      while signed out ends the loading; a signed-in patient's fetch ends it
      too; but a signed-in user of another role triggers nothing, so the
      state stays loading. */
  lemma FirstSessionChange(user: Option<Fields>, outcome: FetchOutcome)
    ensures OnSessionChange(InitialState, false, user, outcome) == PatientState(None, false, Null)
    ensures IsPatient(user) ==> !OnSessionChange(InitialState, true, user, outcome).isLoading
    ensures !IsPatient(user) ==> OnSessionChange(InitialState, true, user, outcome) == PatientState(None, true, Null)
  {
    SessionChangeOutcomes(InitialState, user, outcome);
  }

  /** The fetch awaits between its two dispatches. A sign-out whose
      CLEAR_PATIENT lands in between empties the state, but the late success
      then shows the profile again although nobody is signed in. */
  lemma PendingFetchOutlivesSignOut(s: PatientState, user: Option<Fields>, profile: Fields)
    ensures var started := PatientReducer(s, FetchPatientStart);
      var signedOut := OnSessionChange(started, false, user, Fetched(Some(profile)));
      signedOut == PatientState(None, false, Null)
      && FetchFinish(signedOut, Fetched(Some(profile))) == PatientState(Some(profile), false, Null)
  {
  }
}
