/**
 * The two route guards: src/components/ProtectedRoute.tsx (signed-in users,
 * optionally of one role) and src/components/PublicRoute.tsx (signed-out
 * users only). Each is a decision over the context value, computed afresh on
 * every render.
 */
module Guards {
  import opened Types
  import opened AuthContext

  /** The page components a route can render. */
  datatype Page = LoginPage | UnauthorizedPage | DashboardPage | AssetsPage | NewAssetPage | NotFoundPage

  /**
   * What a route element renders: the loading placeholder, a page (inside
   * `AppLayout` or bare), or a `<Navigate>` whose `replace` flag says whether
   * the history entry is replaced and whose `from` is the location state.
   */
  datatype Decision =
    | Loading
    | Render(page: Page, inLayout: bool)
    | Redirect(to: string, replace: bool, from: Option<string>)

  /** A decision with its redirect payload dropped. */
  datatype Kind = LoadingKind | RenderKind | RedirectKind(target: string)

  function KindOf(d: Decision): Kind
  {
    match d
    case Loading => LoadingKind
    case Render(_, _) => RenderKind
    case Redirect(to, _, _) => RedirectKind(to)
  }

  /** The user's role does not satisfy `requiredRole` (`user?.role !== requiredRole`). */
  predicate RoleMismatch(ctx: ContextValue, requiredRole: Option<UserRole>)
  {
    requiredRole.Some? && (ctx.user.None? || ctx.user.value.role != requiredRole.value)
  }

  /** `<ProtectedRoute requiredRole={requiredRole}>` around `page`, at `location`. */
  function ProtectedRoute(ctx: ContextValue, requiredRole: Option<UserRole>, location: string, page: Page): (d: Decision)
    ensures ctx.isLoading ==> d == Loading
    ensures !ctx.isLoading && !ctx.isAuthenticated ==> d == Redirect("/login", true, Some(location))
    ensures !ctx.isLoading && ctx.isAuthenticated && RoleMismatch(ctx, requiredRole) ==>
              d == Redirect("/unauthorized", true, None)
    ensures d.Render? <==> !ctx.isLoading && ctx.isAuthenticated && !RoleMismatch(ctx, requiredRole)
    ensures d.Render? ==> d == Render(page, true)
  {
    if ctx.isLoading then Loading
    else if !ctx.isAuthenticated then Redirect("/login", true, Some(location))
    else if RoleMismatch(ctx, requiredRole) then Redirect("/unauthorized", true, None)
    else Render(page, true)
  }

  /** `<PublicRoute>` around `page`. */
  function PublicRoute(ctx: ContextValue, page: Page): (d: Decision)
    ensures ctx.isLoading ==> d == Loading
    ensures !ctx.isLoading && ctx.isAuthenticated ==> d == Redirect("/dashboard", true, None)
    ensures d.Render? <==> !ctx.isLoading && !ctx.isAuthenticated
    ensures d.Render? ==> d == Render(page, false)
  {
    if ctx.isLoading then Loading
    else if ctx.isAuthenticated then Redirect("/dashboard", true, None)
    else Render(page, false)
  }

  /** While auth is loading neither guard redirects nor renders its children. */
  lemma LoadingNeverRedirects(ctx: ContextValue, requiredRole: Option<UserRole>, location: string, page: Page)
    requires ctx.isLoading
    ensures !ProtectedRoute(ctx, requiredRole, location, page).Redirect?
    ensures !ProtectedRoute(ctx, requiredRole, location, page).Render?
    ensures !PublicRoute(ctx, page).Redirect? && !PublicRoute(ctx, page).Render?
  {
  }

  /** Once loaded, exactly one of the public guard and the role-free protected guard renders. */
  lemma GuardsExclusive(ctx: ContextValue, location: string, p: Page, q: Page)
    requires !ctx.isLoading
    ensures PublicRoute(ctx, p).Render? != ProtectedRoute(ctx, None, location, q).Render?
  {
  }

  /**
   * The protected decision depends only on `isLoading`, `isAuthenticated`,
   * the user's role and `requiredRole`; the location is redirect payload only.
   */
  lemma ProtectedIgnoresLocation(c1: ContextValue, c2: ContextValue, requiredRole: Option<UserRole>,
                                 loc1: string, loc2: string, page: Page)
    requires c1.isLoading == c2.isLoading && c1.isAuthenticated == c2.isAuthenticated
    requires c1.user.None? == c2.user.None?
    requires c1.user.Some? ==> c1.user.value.role == c2.user.value.role
    ensures KindOf(ProtectedRoute(c1, requiredRole, loc1, page)) == KindOf(ProtectedRoute(c2, requiredRole, loc2, page))
    ensures loc1 == loc2 ==> ProtectedRoute(c1, requiredRole, loc1, page) == ProtectedRoute(c2, requiredRole, loc2, page)
  {
  }
}
