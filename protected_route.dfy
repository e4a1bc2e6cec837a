/** The route guard of src/components/ProtectedRoute.tsx: a three-way decision
    on the context's `isLoading` and `isAuthenticated`. */
module ProtectedRoute {

  const LOGIN_PATH := "/login"

  /** What the guard renders: the loading screen, `<Navigate to replace>`, or its children. */
  datatype Screen<T> = LoadingScreen | Redirect(to: string, replace: bool) | Children(content: T)

  function Guard<T>(isLoading: bool, isAuthenticated: bool, children: T): (s: Screen<T>)
    ensures s.LoadingScreen? <==> isLoading
    ensures s.Redirect? <==> !isLoading && !isAuthenticated
    ensures s.Redirect? ==> s.to == LOGIN_PATH && s.replace
    ensures s.Children? <==> !isLoading && isAuthenticated
    ensures s.Children? ==> s.content == children
  {
    if isLoading then LoadingScreen
    else if !isAuthenticated then Redirect(LOGIN_PATH, true)
    else Children(children)
  }

  /** The decision reads nothing but the two flags: swapping the children
      changes at most what is rendered in the authenticated case. */
  lemma GuardDependsOnlyOnFlags<T>(isLoading: bool, isAuthenticated: bool, a: T, b: T)
    ensures Guard(isLoading, isAuthenticated, a).Children? == Guard(isLoading, isAuthenticated, b).Children?
    ensures !Guard(isLoading, isAuthenticated, a).Children? ==>
              Guard(isLoading, isAuthenticated, a) == Guard(isLoading, isAuthenticated, b)
  {
  }
}
