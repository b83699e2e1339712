/** The newer front-end's route guard: what a protected page shows, and where it sends the
    browser, given the authentication context's two flags. */
module ProtectedRoute {
  import opened Common

  /** What the guard renders: the loading spinner, nothing (`null`), or the page. */
  datatype Render = Spinner | Nothing | Children

  datatype Decision = Decision(render: Render, redirect: Option<string>)

  const LoginPage := "/auth/login"

  /** The guard's decision. The loading check comes first, so the page is never shown, and
      the browser never redirected, while the context is loading; once loaded, an
      authenticated user sees the page and anyone else is sent to the login page. */
  function Guard(isLoading: bool, isAuthenticated: bool): (d: Decision)
    ensures d.render == Children <==> !isLoading && isAuthenticated
    ensures d.render == Spinner <==> isLoading
    ensures d.redirect.Some? <==> !isLoading && !isAuthenticated
    ensures d.redirect.Some? ==> d.redirect.value == LoginPage && d.render == Nothing
  {
    var redirect := if !isLoading && !isAuthenticated then Some(LoginPage) else None;
    if isLoading then Decision(Spinner, redirect)
    else if !isAuthenticated then Decision(Nothing, redirect)
    else Decision(Children, redirect)
  }
}
