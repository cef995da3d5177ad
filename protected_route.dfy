/**
 * src/components/ProtectedRoute.tsx: what a guarded page shows, decided from
 * the auth context's `loading` and `isAuthenticated` alone.
 */
module ProtectedRoute {
  import opened AuthContext

  /** What the guard renders: the spinner, the page, or nothing. */
  datatype Screen = Spinner | Children | Blank

  /** The rendered screen, and whether the effect pushes `/login`. */
  datatype Decision = Decision(screen: Screen, redirect: bool)

  /**
   * The render and the effect, each as the source writes it: the render
   * tests `loading` then `isAuthenticated`; the effect redirects when
   * neither holds.
   */
  function Guard(ctx: ContextValue): (d: Decision)
    ensures ctx.loading ==> d.screen == Spinner && !d.redirect
    ensures d.redirect <==> d.screen == Blank
    ensures d.screen == Children <==> !ctx.loading && ctx.isAuthenticated
  {
    var screen := if ctx.loading then Spinner else if ctx.isAuthenticated then Children else Blank;
    Decision(screen, !ctx.loading && !ctx.isAuthenticated)
  }

  /** `user` and `token` are only logged: contexts agreeing on the two flags get the same decision. */
  lemma GuardIgnoresUserAndToken(a: ContextValue, b: ContextValue)
    requires a.loading == b.loading && a.isAuthenticated == b.isAuthenticated
    ensures Guard(a) == Guard(b)
  {
  }
}
