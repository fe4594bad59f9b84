/** The two route guards (src/components/ProtectedRoute.js and
    src/components/PublicRoute.js): each turns the provided `(user, loading)` pair
    into what the route renders. */
module Guards {
  import opened Common
  import opened Records
  import opened AuthProvider

  /** What a guard renders: the loading placeholder, its children, or a redirect. */
  datatype Decision = Placeholder | Children | RedirectTo(path: string)

  /** `ProtectedRoute`: the placeholder while loading, then the children for a
      signed-in user and a redirect to `/login` otherwise. */
  function ProtectedRoute(auth: AuthValue): (d: Decision)
    ensures auth.loading ==> d == Placeholder
    ensures !auth.loading && auth.user.Some? ==> d == Children
    ensures !auth.loading && auth.user.None? ==> d == RedirectTo("/login")
  {
    if auth.loading then Placeholder
    else if auth.user.Some? then Children
    else RedirectTo("/login")
  }

  /** `PublicRoute`: the placeholder while loading, then a redirect to `/dashboard`
      for a signed-in user and the children otherwise. */
  function PublicRoute(auth: AuthValue): (d: Decision)
    ensures auth.loading ==> d == Placeholder
    ensures !auth.loading && auth.user.Some? ==> d == RedirectTo("/dashboard")
    ensures !auth.loading && auth.user.None? ==> d == Children
  {
    if auth.loading then Placeholder
    else if auth.user.Some? then RedirectTo("/dashboard")
    else Children
  }

  /** While loading, neither guard redirects, whatever the user is. */
  lemma NoRedirectWhileLoading(auth: AuthValue)
    requires auth.loading
    ensures !ProtectedRoute(auth).RedirectTo? && !PublicRoute(auth).RedirectTo?
  {
  }

  /** Once loaded, exactly one of the two guards renders its children, and the
      other redirects. */
  lemma ExactlyOneAdmits(auth: AuthValue)
    requires !auth.loading
    ensures (ProtectedRoute(auth) == Children) != (PublicRoute(auth) == Children)
    ensures ProtectedRoute(auth).RedirectTo? != PublicRoute(auth).RedirectTo?
  {
  }

  /** The decisions depend on the pair only through `loading` and whether a user is
      present, not on which user it is. */
  lemma DecisionsIgnoreIdentity(a: AuthValue, b: AuthValue)
    requires a.loading == b.loading && a.user.Some? == b.user.Some?
    ensures ProtectedRoute(a) == ProtectedRoute(b) && PublicRoute(a) == PublicRoute(b)
  {
  }

  /** A sign-out delivered to a loaded store flips a protected route from its
      children to the login redirect, without another fetch. */
  lemma SignOutRedirectsProtected(s: State, session: Option<Session>)
    requires !s.loading && s.user.Some? && s.listening
    requires SessionUser(session).None?
    ensures ProtectedRoute(AuthValue(s.user, s.loading)) == Children
    ensures var t := Step(s, AuthStateChanged(session));
            ProtectedRoute(AuthValue(t.user, t.loading)) == RedirectTo("/login")
  {
  }
}
