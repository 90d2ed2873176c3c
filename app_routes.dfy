/**
 * src/App.tsx: the top-level loading gate and the route table. Paths are
 * matched exactly against the static route paths.
 */
module AppRoutes {
  import opened Types
  import opened AuthContext
  import opened Guards

  /** The static paths of the route table; everything else hits the catch-all. */
  const RoutedPaths: set<string> := {"/login", "/unauthorized", "/dashboard", "/assets", "/assets/new", "/"}

  /** What the application shows at `path`. */
  function AppView(ctx: ContextValue, path: string): (d: Decision)
    ensures ctx.isLoading ==> d == Loading
    ensures d.Redirect? ==> d.replace
    ensures !ctx.isLoading && path !in RoutedPaths ==> d == Render(NotFoundPage, false)
    ensures !ctx.isLoading && path == "/unauthorized" ==> d == Render(UnauthorizedPage, false)
    ensures !ctx.isLoading && path == "/login" ==>
              d == if ctx.isAuthenticated then Redirect("/dashboard", true, None) else Render(LoginPage, false)
    ensures !ctx.isLoading && path == "/" ==>
              d == Redirect(if ctx.isAuthenticated then "/dashboard" else "/login", true, None)
  {
    if ctx.isLoading then Loading
    else if path == "/login" then
      (if ctx.isAuthenticated then Redirect("/dashboard", true, None) else Render(LoginPage, false))
    else if path == "/unauthorized" then Render(UnauthorizedPage, false)
    else if path == "/dashboard" then ProtectedRoute(ctx, None, path, DashboardPage)
    else if path == "/assets" then ProtectedRoute(ctx, None, path, AssetsPage)
    else if path == "/assets/new" then ProtectedRoute(ctx, None, path, NewAssetPage)
    else if path == "/" then Redirect(if ctx.isAuthenticated then "/dashboard" else "/login", true, None)
    else Render(NotFoundPage, false)
  }

  /**
   * The three protected pages carry no `requiredRole`: once loaded, any
   * signed-in user of either role reaches them and a signed-out one is sent
   * to the login page with the attempted path.
   */
  lemma ProtectedPagesNeedOnlySignIn(ctx: ContextValue, path: string)
    requires !ctx.isLoading
    requires path in {"/dashboard", "/assets", "/assets/new"}
    ensures ctx.isAuthenticated ==> AppView(ctx, path).Render? && AppView(ctx, path).inLayout
    ensures !ctx.isAuthenticated ==> AppView(ctx, path) == Redirect("/login", true, Some(path))
  {
  }

  /** The number of redirects followed from `path` before a page renders (at most `fuel`). */
  function RedirectsFrom(ctx: ContextValue, path: string, fuel: nat): Option<nat>
    decreases fuel
  {
    var d := AppView(ctx, path);
    if !d.Redirect? then Some(0)
    else if fuel == 0 then None
    else
      match RedirectsFrom(ctx, d.to, fuel - 1)
      case Some(n) => Some(n + 1)
      case None => None
  }

  /**
   * No redirect loops: with a loaded snapshot, a redirect from any path lands
   * on a path that renders, so at most one redirect is ever followed.
   */
  lemma NoRedirectLoop(ctx: ContextValue, path: string)
    requires !ctx.isLoading
    ensures AppView(ctx, path).Redirect? ==> AppView(ctx, AppView(ctx, path).to).Render?
    ensures RedirectsFrom(ctx, path, 1).Some? && RedirectsFrom(ctx, path, 1).value <= 1
  {
  }

  /** While loading the whole app shows the loading view and resolves no route. */
  lemma LoadingResolvesNoRoute(ctx: ContextValue, path: string)
    requires ctx.isLoading
    ensures RedirectsFrom(ctx, path, 0) == Some(0) && AppView(ctx, path) == Loading
  {
  }
}
