/** The gate in front of every admin page. */
module Auth {
  import opened Common
  import opened Store

  /** The gate either redirects or lets the page render for the signed-in
      user. */
  datatype Gate = Redirect(url: string) | Proceed(userId: string)

  const SignInForAdmin := "/auth/signin?redirect=/admin"

  /** The role the `.single()` read returns: none when the read reports an
      error (its data is then null), otherwise the role of the user's row,
      which exists exactly when `users` has that id. */
  function RoleOf(userId: string, users: map<string, User>, roleReadFails: bool): (role: Option<string>)
    ensures roleReadFails || userId !in users ==> role.None?
    ensures !roleReadFails && userId in users ==> role == users[userId].role
  {
    if roleReadFails || userId !in users then None else users[userId].role
  }

  /** `requireAdmin`: `session` is the signed-in user's id, if any, and
      `roleReadFails` says whether the role read reports an error. A null
      result fails closed: the caller is sent home even if the row says
      "admin". */
  function RequireAdmin(session: Option<string>, users: map<string, User>, roleReadFails: bool): (g: Gate)
    ensures session.None? ==> g == Redirect(SignInForAdmin)
    ensures session.Some? && roleReadFails ==> g == Redirect("/")
    ensures session.Some? && (session.value !in users || users[session.value].role != Some("admin")) ==> g == Redirect("/")
    ensures session.Some? && !roleReadFails && session.value in users && users[session.value].role == Some("admin") ==> g == Proceed(session.value)
  {
    if session.None? then Redirect(SignInForAdmin)
    else if RoleOf(session.value, users, roleReadFails) != Some("admin") then Redirect("/")
    else Proceed(session.value)
  }

  /** Returning normally means the caller is signed in, the role read
      succeeded and the row holds the admin role; a missing role (null) never
      passes. */
  lemma ProceedOnlyForAdmins(session: Option<string>, users: map<string, User>, roleReadFails: bool)
    ensures RequireAdmin(session, users, roleReadFails).Proceed? <==>
      session.Some? && !roleReadFails && session.value in users && users[session.value].role == Some("admin")
    ensures RequireAdmin(session, users, roleReadFails).Proceed? ==> RequireAdmin(session, users, roleReadFails).userId == session.value
  {
  }
}
