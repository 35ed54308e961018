/** The access rules of the server's middleware (server/middleware/auth.js):
    `requireRole` and `requirePatientAccess` decide, from the user that
    authentication attached to the request, whether the request goes on to
    its handler or is answered with an error. */
module Access {
  import opened Js

  /** The fields of `req.user` the rules read. */
  datatype AuthUser = AuthUser(role: Value, patientId: Value)

  /** Either `next()` is called, and no response is sent, or the request is
      answered with an error status and message. */
  datatype Verdict = Next | Reject(status: int, error: string)

  const AuthenticationRequired := Reject(401, "Authentication required")
  const InsufficientPermissions := Reject(403, "Insufficient permissions")
  const OtherPatientDenied := Reject(403, "Access denied to other patient data")

  /** `roles.includes(role)`: some allowed role is that very string. */
  predicate RoleAllowed(roles: seq<string>, role: Value) {
    exists r :: r in roles && role == Str(r)
  }

  /** `requireRole(roles)`: signed-out requests get 401, a role outside the
      list gets 403, and every other request goes on. */
  function RequireRole(roles: seq<string>, user: Option<AuthUser>): (v: Verdict)
    ensures v == AuthenticationRequired <==> user.None?
    ensures v == InsufficientPermissions <==> user.Some? && !RoleAllowed(roles, user.value.role)
    ensures v == Next <==> user.Some? && RoleAllowed(roles, user.value.role)
  {
    if user.None? then AuthenticationRequired
    else if !RoleAllowed(roles, user.value.role) then InsufficientPermissions
    else Next
  }

  /** Allowing more roles never turns away a request that was let through. */
  lemma RequireRoleWidening(roles: seq<string>, more: seq<string>, user: Option<AuthUser>)
    requires RequireRole(roles, user) == Next
    ensures RequireRole(roles + more, user) == Next
  {
    var r :| r in roles && user.value.role == Str(r);
    assert r in roles + more;
  }

  /** A role that is not a string, such as a missing one, is never allowed. */
  lemma NonStringRoleRefused(roles: seq<string>, user: AuthUser)
    requires !user.role.Str?
    ensures RequireRole(roles, Some(user)) == InsufficientPermissions
  {
  }

  /** The patient id a request names: the path parameter, or else the body's. */
  function RequestedPatient(paramsId: Value, bodyId: Value): Value {
    Or(paramsId, bodyId)
  }

  /** `requirePatientAccess`: signed-out requests get 401; a patient who
      names a patient id that is not theirs gets 403; everything else goes on. */
  function RequirePatientAccess(user: Option<AuthUser>, paramsId: Value, bodyId: Value): (v: Verdict)
    ensures v == AuthenticationRequired <==> user.None?
    ensures v == OtherPatientDenied <==>
      user.Some? && StrictEquals(user.value.role, Str("patient"))
      && Truthy(RequestedPatient(paramsId, bodyId))
      && !StrictEquals(RequestedPatient(paramsId, bodyId), user.value.patientId)
    ensures v == Next || v == AuthenticationRequired || v == OtherPatientDenied
  {
    if user.None? then AuthenticationRequired
    else if StrictEquals(user.value.role, Str("patient")) then
      var patientId := RequestedPatient(paramsId, bodyId);
      if Truthy(patientId) && !StrictEquals(patientId, user.value.patientId) then OtherPatientDenied
      else Next
    else Next
  }

  /** Users who are not patients are never held back by the patient rule. */
  lemma NonPatientsPass(user: AuthUser, paramsId: Value, bodyId: Value)
    requires user.role != Str("patient")
    ensures RequirePatientAccess(Some(user), paramsId, bodyId) == Next
  {
  }

  /** A patient passes when the request names no patient, or names their own
      id (a string or number, taken from the path first). */
  lemma PatientOwnDataPasses(user: AuthUser, paramsId: Value, bodyId: Value)
    requires user.role == Str("patient")
    requires (!Truthy(paramsId) && !Truthy(bodyId))
      || (Truthy(paramsId) && paramsId == user.patientId && (paramsId.Str? || paramsId.Num?))
      || (!Truthy(paramsId) && bodyId == user.patientId && (bodyId.Str? || bodyId.Num?))
    ensures RequirePatientAccess(Some(user), paramsId, bodyId) == Next
  {
  }

  /** The path parameter wins: a patient naming their own id in the path is
      let through whatever the body names. */
  lemma PathIdWins(user: AuthUser, own: string, bodyId: Value)
    requires user.role == Str("patient") && user.patientId == Str(own) && own != ""
    ensures RequirePatientAccess(Some(user), Str(own), bodyId) == Next
  {
  }

  /** The user `authMiddleware` attaches: id, email and role, but no
      `patientId`. */
  function SessionUser(role: Value): (u: AuthUser)
    ensures u.role == role && u.patientId == Undefined
  {
    AuthUser(role, Undefined)
  }

  /** So, behind `authMiddleware`, a patient who names any patient id at all
      is refused: nothing is ever identical to the missing `patientId`. */
  lemma SessionPatientNamingAnyIdDenied(paramsId: Value, bodyId: Value)
    requires Truthy(paramsId) || Truthy(bodyId)
    ensures RequirePatientAccess(Some(SessionUser(Str("patient"))), paramsId, bodyId) == OtherPatientDenied
  {
  }
}
