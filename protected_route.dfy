/**
 * The route guard of the client: from the authentication state it decides whether the
 * protected page is rendered, a spinner is shown, the visitor is sent to the login page,
 * or access is denied for a missing role.
 */
module ProtectedRoute {
  import opened Common
  import opened UserEntity
  import opened AuthEntities

  /** What the guard renders. */
  datatype View =
    | Loading(custom: bool)      // the caller's fallback when it gave one, else the spinner
    | RedirectToLogin            // navigation to "/login", replacing the history entry
    | AccessDenied(role: string) // the denial page naming the required role
    | Children                   // the protected content

  /** The slice of the authentication context the guard reads. */
  datatype AuthView = AuthView(user: Option<User>, isAuthenticated: bool, isLoading: bool, status: AuthStatus)

  /** The decision, branch by branch. `hasFallback` says whether a (truthy) fallback node was passed. */
  function Guard(auth: AuthView, hasFallback: bool, requiredRole: Option<string>): (v: View)
    // loading wins over everything else
    ensures v.Loading? <==> auth.isLoading || auth.status == LOADING
    ensures v.Loading? ==> v.custom == hasFallback
    // not loading and signed out by either the flag or the status: off to the login page
    ensures v == RedirectToLogin <==>
      !auth.isLoading && auth.status != LOADING && (!auth.isAuthenticated || auth.status == UNAUTHENTICATED)
    // denial names the role and only meets a signed-in user object lacking it
    ensures v.AccessDenied? <==>
      !auth.isLoading && auth.status != LOADING && auth.isAuthenticated && auth.status != UNAUTHENTICATED &&
      Truthy(requiredRole) && auth.user.Some? && requiredRole.value !in auth.user.value.roles
    ensures v.AccessDenied? ==> requiredRole == Some(v.role)
    // the content: signed in, and the role held, not required, or no user object to check
    ensures v == Children <==>
      !auth.isLoading && auth.status != LOADING && auth.isAuthenticated && auth.status != UNAUTHENTICATED &&
      (!Truthy(requiredRole) || auth.user.None? || requiredRole.value in auth.user.value.roles)
  {
    if auth.isLoading || auth.status == LOADING then Loading(hasFallback)
    else if !auth.isAuthenticated || auth.status == UNAUTHENTICATED then RedirectToLogin
    else if Truthy(requiredRole) && auth.user.Some? && requiredRole.value !in auth.user.value.roles then
      AccessDenied(requiredRole.value)
    else Children
  }

  /** An empty required role is no requirement at all: `""` is falsy. */
  lemma EmptyRoleIsNoRequirement(auth: AuthView, hasFallback: bool)
    ensures Guard(auth, hasFallback, Some("")) == Guard(auth, hasFallback, None)
  {
  }
}
