/** The route guard of src/components/ProtectedLayout.tsx as a decision on the
    session state: what the component renders, and where its effect sends the
    router. */
module ProtectedLayout {
  import opened Wrappers
  import opened Types

  /** What a guard renders: the loading spinner, nothing (`null`), or the
      protected children inside the navigation bar and footer shell. */
  datatype View = Spinner | Nothing | Shell

  /** One render of a guard: its view and the `router.push` target its effect
      issues, if any. */
  datatype Decision = Decision(view: View, redirect: Option<string>)

  /** The plain guard. */
  function Decide(loading: bool, isAuthenticated: bool): (d: Decision)
    ensures loading ==> d == Decision(Spinner, None)
    ensures !loading && !isAuthenticated ==> d == Decision(Nothing, Some(LoginPath))
    ensures d.view == Shell <==> !loading && isAuthenticated
    ensures d.view == Shell ==> d.redirect == None
  {
    var redirect := if !loading && !isAuthenticated then Some(LoginPath) else None;
    if loading then Decision(Spinner, redirect)
    else if !isAuthenticated then Decision(Nothing, redirect)
    else Decision(Shell, redirect)
  }
}
