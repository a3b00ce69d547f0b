/**
 * The session the identity provider hands to pages and route handlers: absent
 * when nobody is signed in, otherwise the user's email and role. A missing or
 * empty email is the empty string (both are falsy in the source's checks).
 */
module Auth {
  import opened Wrappers

  datatype SessionUser = SessionUser(email: string, role: string)

  type Session = Option<SessionUser>

  const AdminRole: string := "ADMIN"

  /** `session && session.user && session.user.email`: the signed-in email, if there is one. */
  function SignedInEmail(session: Session): (e: Option<string>)
    ensures e.Some? <==> session.Some? && session.value.email != ""
    ensures e.Some? ==> e.value == session.value.email
  {
    if session.Some? && session.value.email != "" then Some(session.value.email) else None
  }

  /** The admin gate: `!session || session.user.role !== "ADMIN"` rejects. */
  predicate IsAdmin(session: Session): (admin: bool)
    ensures session.None? ==> !admin
    ensures admin ==> session.value.role == AdminRole
    ensures session.Some? && session.value.role == "USER" ==> !admin
    ensures session.Some? && session.value.role == AdminRole ==> admin
  {
    session.Some? && session.value.role == AdminRole
  }
}
