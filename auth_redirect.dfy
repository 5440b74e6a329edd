/** withAuthRedirect: the wrapper for the login and register pages. It renders
    nothing while a user is signed in, and an effect keyed on `user` pushes
    "/" onto the history whenever it runs with a user present. */
module AuthRedirect {
  import opened Common
  import opened AuthProvider

  /** `user ? null : <WrappedComponent/>`. */
  function RendersPage(user: Option<User>): (r: bool)
    ensures r <==> user.None?
  {
    !user.Some?
  }

  /** React runs an effect with dependencies [user, navigate] after the first
      render (no previous render: None) and after every render whose `user`
      differs from the previous one's; `navigate` is stable. */
  predicate EffectRuns(previousUser: Option<Option<User>>, user: Option<User>) {
    previousUser.None? || previousUser.value != user
  }

  /** A navigation the effect issues after this render (a push, not a replace). */
  function EffectNavigation(previousUser: Option<Option<User>>, user: Option<User>): (nav: Option<string>)
    ensures nav.Some? <==> EffectRuns(previousUser, user) && user.Some?
    ensures nav.Some? ==> nav.value == "/"
  {
    if EffectRuns(previousUser, user) && user.Some? then Some("/") else None
  }

  /** Without a user no navigation ever happens. */
  lemma AnonymousStays(previousUser: Option<Option<User>>)
    ensures EffectNavigation(previousUser, None) == None
    ensures RendersPage(None)
  {
  }

  /** A login that completes while the page is mounted triggers the redirect:
      the decision is re-evaluated when `user` changes, not only on mount. */
  lemma LoginWhileMountedRedirects(u: User)
    ensures EffectNavigation(Some(None), Some(u)) == Some("/")
    ensures !RendersPage(Some(u))
  {
  }

  /** A signed-in visitor arriving at the page is redirected on mount. */
  lemma SignedInOnMountRedirects(u: User)
    ensures EffectNavigation(None, Some(u)) == Some("/")
  {
  }
}
