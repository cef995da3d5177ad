/**
 * src/pages/_app.tsx: every page is rendered inside `AuthProvider`; pages on
 * the public list are rendered directly, every other page inside
 * `ProtectedRoute`.
 */
module App {
  import opened AuthContext
  import opened ProtectedRoute

  const PublicPaths: seq<string> := ["/login", "/register", "/forgot-password"]

  /** `publicPaths.includes(router.pathname)`: exact membership. */
  predicate IsPublicPath(path: string) {
    path in PublicPaths
  }

  /** The element tree `App` returns, down to the page component. */
  datatype Tree = Provider(child: Tree) | Guarded(child: Tree) | Page

  /** `App` for the current pathname. */
  function Render(path: string): (t: Tree)
    ensures t.Provider?
    ensures t.child == Page <==> IsPublicPath(path)
    ensures t.child == Guarded(Page) <==> !IsPublicPath(path)
  {
    Provider(if IsPublicPath(path) then Page else Guarded(Page))
  }

  /** What a tree shows under an auth context: a guard decides only for what it wraps. */
  function Show(t: Tree, ctx: ContextValue): Decision {
    match t
    case Provider(c) => Show(c, ctx)
    case Guarded(c) =>
      var g := Guard(ctx);
      if g.screen == Children then Show(c, ctx) else g
    case Page => Decision(Children, false)
  }

  /** Public pages always show, and no auth state ever redirects them. */
  lemma PublicPageAlwaysShown(path: string, ctx: ContextValue)
    requires IsPublicPath(path)
    ensures Show(Render(path), ctx) == Decision(Children, false)
  {
  }

  /** Every other page shows exactly what the guard decides. */
  lemma OtherPagesGuarded(path: string, ctx: ContextValue)
    requires !IsPublicPath(path)
    ensures Show(Render(path), ctx) == Guard(ctx)
  {
    var g := Guard(ctx);
    assert Show(Render(path), ctx) == Show(Guarded(Page), ctx);
    if g.screen == Children {
      assert Show(Guarded(Page), ctx) == Show(Page, ctx) == Decision(Children, false) == g;
    }
  }
}
