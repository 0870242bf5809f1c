/** The guard around the dashboard routes: a loader while the authentication
    state is being resolved, a redirect to `/login` for a signed-out visitor,
    and the protected page otherwise. */
module ProtectedRoute {
  import opened Wrappers

  const LoginPath := "/login"

  /** The router location the visitor asked for. */
  datatype Location = Location(pathname: string, search: string, hash: string)

  /** What the guard renders. */
  datatype Rendered<Page> =
    | Loader
    /** `<Navigate to state={{ from }} replace />`. */
    | Navigate(to: string, from: Location, replace: bool)
    | Children(page: Page)

  function Guard<User, Page>(loading: bool, currentUser: Option<User>, location: Location, children: Page)
    : (r: Rendered<Page>)
    ensures r.Loader? <==> loading
    ensures r.Navigate? <==> !loading && currentUser.None?
    ensures r.Children? <==> !loading && currentUser.Some?
    ensures r.Navigate? ==> r.to == LoginPath && r.from == location && r.replace
    ensures r.Children? ==> r.page == children
  {
    if loading then Loader
    else if currentUser.None? then Navigate(LoginPath, location, true)
    else Children(children)
  }

  /** The decision does not depend on who the user is, only on whether there is one. */
  lemma GuardIgnoresUserIdentity<User, Page>(loading: bool, u: User, v: User, location: Location, children: Page)
    ensures Guard(loading, Some(u), location, children) == Guard(loading, Some(v), location, children)
  {
  }
}
