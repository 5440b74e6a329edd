/** withAuthProtection: the require-role wrapper. Evaluated on every render
    from the current user and the role the wrapper was built with. */
module ProtectedRoute {
  import opened Common
  import opened AuthProvider

  /** The roles a protected page may require. */
  datatype Role = Admin | Librarian | Reader

  function RoleName(r: Role): string {
    match r
    case Admin => "admin"
    case Librarian => "librarian"
    case Reader => "reader"
  }

  /** Render the wrapped page, or a `<Navigate>` to a path. */
  datatype Access = Render | Redirect(to: string, replace: bool)

  function Protect(user: Option<User>, requiredRole: Option<Role>): (a: Access)
    ensures a.Render? <==> user.Some? && (requiredRole.None? || user.value.role == RoleName(requiredRole.value))
    ensures user.None? ==> a == Redirect("/login", true)
    ensures user.Some? && !a.Render? ==> a == Redirect("/", true)
  {
    if user.None? then Redirect("/login", true)
    else if requiredRole.Some? && user.value.role != RoleName(requiredRole.value) then Redirect("/", true)
    else Render
  }

  /** Without a user the page is never rendered, whatever role is required. */
  lemma AnonymousGoesToLogin(requiredRole: Option<Role>)
    ensures Protect(None, requiredRole) == Redirect("/login", true)
  {
  }

  /** A user whose role differs from the required one is sent home. */
  lemma WrongRoleGoesHome(u: User, r: Role)
    requires u.role != RoleName(r)
    ensures Protect(Some(u), Some(r)) == Redirect("/", true)
  {
  }

  /** With no required role every signed-in user gets the page. */
  lemma NoRoleAdmitsEveryUser(u: User)
    ensures Protect(Some(u), None) == Render
  {
  }

  /** Exactly one of the three outcomes happens, and every redirect replaces
      the history entry. */
  lemma OutcomesExclusive(user: Option<User>, requiredRole: Option<Role>)
    ensures var a := Protect(user, requiredRole);
      a == Render || a == Redirect("/login", true) || a == Redirect("/", true)
    ensures Protect(user, requiredRole).Redirect? ==> Protect(user, requiredRole).replace
  {
  }
}
