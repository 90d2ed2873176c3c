# Safeguard70E client core, modelled in Dafny

This project models the client-side core of the Safeguard70E asset manager. The app is a role-gated dashboard for electrical-safety equipment. The model covers five parts:

- **The authentication provider.** It holds the signed-in `user` and the `isLoading` flag, and keeps the user under the storage key `safeguard70e_user`. It loads that key at startup, follows storage events from other tabs, logs in against two built-in test identities, and logs out.
- **The route guards and the route table.** Each one decides, per render, whether to show the loading placeholder, render a page, or redirect.
- **The login page.** This covers its loading branch, its redirect effect, the fill-in buttons, and the submit handlers.
- **The role-dependent views.** These are the sidebar links, the dashboard, asset and user lists with their search and filter rules, the status counts and tabs, and the classification options.
- **The inspection-status thresholds** and the demo data tables.

One module per source file:

| module | file | source |
|---|---|---|
| `Types` | types.dfy | src/types/auth.ts, src/types/asset.ts |
| `Text` | text.dfy | `toLowerCase` and `includes` as used by the search boxes |
| `Seqs` | seqs.dfy | `Array.prototype.filter`, `Array.from(new Set(...))` |
| `MockData` | mock_data.dfy | src/utils/mockData.ts |
| `AuthContext` | auth_context.dfy | src/contexts/AuthContext.tsx |
| `Guards` | guards.dfy | src/components/ProtectedRoute.tsx, src/components/PublicRoute.tsx |
| `AppRoutes` | app_routes.dfy | src/App.tsx |
| `LoginPage` | login_page.dfy | src/pages/Login.tsx |
| `AppLayout` | app_layout.dfy | src/components/AppLayout.tsx |
| `Dashboard` | dashboard.dfy | src/pages/Dashboard.tsx |
| `AssetsPage` | assets_page.dfy | src/pages/Assets.tsx |
| `UsersPage` | users_page.dfy | src/pages/Users.tsx |

The auth provider is modelled in two layers:

- **Step functions.** Each operation is a function on an `AuthState` value: `LoadStep`, `StorageEventStep`, `LoginStep` and `LogoutStep`. The state holds the user, the loading flag, the storage slot, and whether storage is usable. The lemmas about the provider are stated over these functions.
- **A class.** `AuthProvider` has the fields `user` and `isLoading` and a reference to a shared `LocalStorage` object. Its methods perform each operation step by step. Each method is proved to reach exactly the state its step function gives.

Two tabs can share one `LocalStorage`. That is how the cross-tab logout is shown (`LogoutReachesOtherTab`).

The storage slot is `Empty | Stored(user) | Corrupt`, where `Corrupt` is text that `JSON.parse` rejects.

Storage faults are modelled with an `available` flag; when it is false, every storage call throws:
- login and logout catch the fault and only log it;
- the startup load's catch block calls `removeItem` again, so the exception escapes the load. `isLoading` still ends false.

A corrupt value in a storage event makes `JSON.parse` throw inside the listener, and nothing is set. Unlike the startup load, the listener has no guard against this.

The code has no session origin tag and no remote identity provider. It does not redirect back to `from` after login, and it has no sign-up retry. `login` knows only the two test identities.

The "Add New Asset" link is shown only to admins, but the `/assets/new` route has no required role. A signed-in technician who types the path still gets the new-asset page (`AssetsPage.AddLinkHiddenButRouteOpen`).

## Model

| member | source | states |
|---|---|---|
| `Types.StatusNameInjective` | src/types/asset.ts:2 | two statuses have the same string name iff they are the same status |
| `Text.IncludesIffOccurs` | src/pages/Dashboard.tsx:36-40 | the left-to-right `includes` scan is true iff the term occurs at some index of the text |
| `Text.EmptyTermMatches` | src/pages/Dashboard.tsx:36-40 | an empty search term matches every field |
| `Seqs.FilterSelects` | src/pages/Dashboard.tsx:29-41 | `filter` keeps exactly the positions whose element passes, in their original order |
| `Seqs.FilterMembership` | src/pages/Dashboard.tsx:29-41 | an element is in the filtered list iff it is in the list and passes |
| `Seqs.DedupSpec` | src/pages/Assets.tsx:19-21 | `Array.from(new Set(xs))` holds each element of `xs` exactly once, with no duplicates, in order of first occurrence |
| `MockData.CalculateStatus` | src/utils/mockData.ts:18-30 | a negative day difference gives expired; 0 to 30 inclusive gives near due; above 30 gives active |
| `MockData.CalculateStatusMonotone` | src/utils/mockData.ts:23-29 | a later next-test date never gives a worse status (expired < near due < active) |
| `MockData.MockAssetsConsistent` | src/utils/mockData.ts:33-192 | every demo asset is assigned to user `'1'` or `'2'`, both demo users; its status is the one its next test date calls for |
| `MockData.MockAssetStatuses` | src/utils/mockData.ts:33-192 | with the nominal offsets, asset 1 is near due, assets 5 and 7 are expired, and the other five are active |
| `MockData.MockUsersMatchTestIdentities` | src/utils/mockData.ts:195-208 | the demo user table is the auth context's test identities without passwords (same ids, names, emails, roles) |
| `AuthContext.Value` | src/contexts/AuthContext.tsx:125-131 | `isAuthenticated` is exactly `user != null`; `user` and `isLoading` are passed through |
| `AuthContext.FindUser` | src/contexts/AuthContext.tsx:91 | `find` returns nothing iff no entry matches both email and password, else the first matching entry |
| `AuthContext.LoginSucceedsIffTestIdentity` | src/contexts/AuthContext.tsx:91-110 | login succeeds iff the email/password pair is one of the test identities |
| `AuthContext.LoginSuccess` | src/contexts/AuthContext.tsx:91-104 | a matching pair sets `user` to that entry without its password and stores the same record when storage works; it ends authenticated with `isLoading` false |
| `AuthContext.LoginFailure` | src/contexts/AuthContext.tsx:105-113 | a non-matching pair throws "Invalid credentials"; `user` and the slot are unchanged and `isLoading` ends false |
| `AuthContext.LogoutSignsOut` | src/contexts/AuthContext.tsx:116-123 | logout clears `user`, empties the slot when storage works, swallows storage faults, and is idempotent |
| `AuthContext.LoadIsFailSafe` | src/contexts/AuthContext.tsx:50-64 | the startup load always ends with `isLoading` false; it adopts a stored user and adopts nothing from an empty slot; it clears corrupt data without throwing; only a storage fault escapes |
| `AuthContext.LoginThenReload` | src/contexts/AuthContext.tsx:50-101 | after a successful login, a fresh provider loading the same storage reaches the same state |
| `AuthContext.StorageEventEffects` | src/contexts/AuthContext.tsx:70-78 | for the auth key, a cleared value signs out, a stored value is adopted, and a corrupt value throws and changes nothing; other keys change nothing; the slot is never written |
| `AuthContext.AuthProvider.constructor` | src/contexts/AuthContext.tsx:45-46 | a provider mounts with no user and `isLoading` true |
| `AuthContext.AuthProvider.LoadUserFromStorage` | src/contexts/AuthContext.tsx:50-64 | the step-by-step load reaches exactly `LoadStep` of the old state |
| `AuthContext.AuthProvider.HandleStorageChange` | src/contexts/AuthContext.tsx:70-78 | the listener changes only `user`, exactly as `StorageEventStep` says |
| `AuthContext.AuthProvider.Login` | src/contexts/AuthContext.tsx:87-114 | the step-by-step login reaches exactly `LoginStep` of the old state and returns its outcome |
| `AuthContext.AuthProvider.Logout` | src/contexts/AuthContext.tsx:116-123 | the step-by-step logout reaches exactly `LogoutStep` of the old state |
| `AuthContext.ReloadAfterLogin` | src/contexts/AuthContext.tsx:50-101 | on objects: log in, then reload into a fresh provider over the same storage; the same user is restored, and a failed login restores no user |
| `AuthContext.LogoutReachesOtherTab` | src/contexts/AuthContext.tsx:70-123 | two signed-in tabs share storage; tab A logs out and tab B handles the storage event; both end signed out |
| `Guards.ProtectedRoute` | src/components/ProtectedRoute.tsx:16-45 | loading gives the placeholder; signed out redirects to `/login` with replace and the attempted path as `from`; a role mismatch redirects to `/unauthorized` with replace; the page renders in the layout iff loaded, signed in and the role fits |
| `Guards.PublicRoute` | src/components/PublicRoute.tsx:15-32 | loading gives the placeholder; signed in redirects to `/dashboard` with replace; the page renders iff loaded and signed out |
| `Guards.LoadingNeverRedirects` | src/components/ProtectedRoute.tsx:20-29 | while loading, neither guard redirects or renders its children |
| `Guards.GuardsExclusive` | src/components/PublicRoute.tsx:27-32 | once loaded, exactly one of the public guard and the role-free protected guard renders |
| `Guards.ProtectedIgnoresLocation` | src/components/ProtectedRoute.tsx:16-45 | the decision depends only on loading, authentication, role and required role; the location changes only the redirect payload |
| `AppRoutes.AppView` | src/App.tsx:19-71 | loading shows only the loading view. Once loaded: `/login` redirects a signed-in user to `/dashboard` and otherwise renders Login; `/unauthorized` always renders; `/` redirects to `/dashboard` or `/login`; unlisted paths render NotFound; every redirect replaces |
| `AppRoutes.ProtectedPagesNeedOnlySignIn` | src/App.tsx:44-61 | `/dashboard`, `/assets` and `/assets/new` render for a signed-in user of either role; a signed-out user is sent to `/login` with the path |
| `AppRoutes.NoRedirectLoop` | src/App.tsx:38-71 | once loaded, the target of every redirect renders, so at most one redirect is followed from any path |
| `AppRoutes.LoadingResolvesNoRoute` | src/App.tsx:22-28 | while loading, no route is resolved and no redirect is followed |
| `LoginPage.LoginPageShowsForm` | src/pages/Login.tsx:83-92 | whenever the route table renders the login page, auth has loaded and the page shows its form; while loading, the app's own loading view replaces the whole route, so the page's spinner is never reached |
| `LoginPage.RedirectEffectAgreesWithRoutes` | src/pages/Login.tsx:24-28 | whenever the effect would push `/dashboard`, the route table already replaces `/login` with `/dashboard`, which renders; whenever the route table renders the login page, the effect does nothing |
| `LoginPage.FilledCredentialsSignIn` | src/pages/Login.tsx:31-40 | the credentials of both fill-in buttons sign in, as admin and as technician |
| `LoginPage.LoginForm.constructor` | src/pages/Login.tsx:14-19 | the form starts empty, not submitting, with no errors |
| `LoginPage.LoginForm.FillAdminCredentials` | src/pages/Login.tsx:31-34 | sets the admin test email and password |
| `LoginPage.LoginForm.FillTechCredentials` | src/pages/Login.tsx:37-40 | sets the technician test email and password |
| `LoginPage.LoginForm.HandleLogin` | src/pages/Login.tsx:42-54 | the auth state becomes `LoginStep`'s; the login error is cleared on success and otherwise set to the thrown message or the default text; `isSubmitting` ends false |
| `LoginPage.LoginForm.HandleSignUp` | src/pages/Login.tsx:56-80 | a password under 6 characters sets the length error without calling `signUp`; otherwise `signUp` is called and its failure message shown; `isSubmitting` ends false |
| `LoginPage.AdminButtonSignsIn` | src/pages/Login.tsx:31-54 | fill admin credentials, then submit: the user is signed in as admin with no error. The route table then replaces `/login` with `/dashboard`, which renders in the layout; the page's own effect never runs |
| `AppLayout.NavItemsByRole` | src/components/AppLayout.tsx:74-85 | Dashboard and Assets lead and Profile closes the list. The Users link appears iff the user is an admin, and so does the Reports link. For an admin they are the third and fourth of five links; a non-admin has three links |
| `AppLayout.NonAdminNavIsFilteredAdminNav` | src/components/AppLayout.tsx:75-85 | a non-admin's links are the admin's with Users and Reports removed, in the same order |
| `AppLayout.SidebarLinksOutsideRouteTable` | src/components/AppLayout.tsx:80-85 | the Users, Reports and Profile links lead to paths the route table does not list, which render NotFound |
| `AppLayout.Layout.constructor` | src/components/AppLayout.tsx:31 | the sidebar starts closed |
| `AppLayout.Layout.ToggleSidebar` | src/components/AppLayout.tsx:50-52 | toggling flips `sidebarOpen`, so two toggles restore it |
| `AppLayout.Layout.CloseSidebar` | src/components/AppLayout.tsx:57-61 | a backdrop click closes the sidebar |
| `AppLayout.Layout.HandleLogout` | src/components/AppLayout.tsx:37-48 | logs out (state becomes `LogoutStep`'s), then shows the toast; nothing propagates |
| `Dashboard.FilteredAssetsMembers` | src/pages/Dashboard.tsx:29-41 | an asset is listed iff the role permits it and the term matches name, serial number or classification; a technician sees only assets assigned to them; for an admin or no user the role excludes nothing |
| `Dashboard.FilteredAssetsInOrder` | src/pages/Dashboard.tsx:29-41 | the list is the order-preserving subsequence of exactly the permitted, matching assets |
| `Dashboard.EmptySearchKeepsPermitted` | src/pages/Dashboard.tsx:36-40 | an empty search lists every permitted asset |
| `Dashboard.StatusCountsSum` | src/pages/Dashboard.tsx:44-46 | the active, near-due and expired counts add up to the length of the filtered list |
| `Dashboard.BadgeTextByStatus` | src/pages/Dashboard.tsx:11-22 | each status gets its own badge text, never "Unknown"; "Unknown" shows exactly for a string that names no status |
| `Dashboard.AdminDemoCounts` | src/pages/Dashboard.tsx:29-46 | on the demo data an admin with an empty search sees all eight assets: five active, one near due, two expired |
| `Dashboard.TabContents` | src/pages/Dashboard.tsx:141-165 | tab `all` shows the whole filtered list; a status tab shows exactly the assets with that status; its "No assets found" note shows iff there are none |
| `AssetsPage.ClassificationsSpec` | src/pages/Assets.tsx:19-21 | the classification options are exactly the classifications that occur, each once, in first-occurrence order |
| `AssetsPage.FilteredAssetsMembers` | src/pages/Assets.tsx:24-45 | the filters combine like this: technicians see only their own assets; `all` or an equal status; `all` or an equal classification; the term matches name or serial number (not classification) |
| `AssetsPage.FilteredAssetsInOrder` | src/pages/Assets.tsx:24-45 | the list is the order-preserving subsequence of exactly the passing assets; it is empty (the "No assets found" note) iff none passes |
| `AssetsPage.AddLinkMatchesAdminNav` | src/pages/Assets.tsx:56-60 | the "Add New Asset" link is shown iff the user is an admin, which is exactly when the sidebar lists the Users link |
| `AssetsPage.AddLinkHiddenButRouteOpen` | src/App.tsx:57-61 | a signed-in technician does not see the link, yet `/assets/new` renders the new-asset page in the layout for them |
| `AssetsPage.StatusLabelAgreesWithBadge` | src/pages/Assets.tsx:137-141 | the labels are active "Active", near due "Near Due", else "Expired"; they agree with the dashboard badge; distinct statuses get distinct labels |
| `UsersPage.FilteredUsersSpec` | src/pages/Users.tsx:49-53 | a profile is listed iff its name, email or role contains the term, ignoring case; the fetched order is kept; the list is empty iff no profile matches |
| `UsersPage.EmptySearchKeepsAll` | src/pages/Users.tsx:49-53 | an empty search lists every profile |
| `UsersPage.UsersState.constructor` | src/pages/Users.tsx:20-21 | the page starts with no users and loading |
| `UsersPage.UsersState.FinishFetch` | src/pages/Users.tsx:26-43 | rows replace the list and null data gives the empty list; an error keeps the list and shows the error toast; loading ends on both paths |

## Left out

- Rendering, styling, toasts and cards are not modelled. A toast is a returned flag. The Reports chart, the NotFound and Unauthorized pages, and the form plumbing of NewAsset, AssetNew, AssetDetail and Profile are presentational or remote-data code.
- Supabase calls are not modelled. They are network calls into a library outside this model. The profiles query result of src/pages/Users.tsx is an input to `FinishFetch`, and its `created_at` ordering is the database's.
- `JSON.parse`/`JSON.stringify` are abstracted into the slot datatype. Text that parses as JSON but is not a user record (for example `null` or a number) is not modelled.
- Storage faults are all-or-nothing: the `available` flag either works for every call or fails for every call. A write-only failure such as a quota error on `setItem` is not distinguished.
- The registration and removal of the `storage` listener are not modelled. When the startup load throws, the effect never reaches the registration. React effect timing, dependency arrays and re-render order are event-loop behaviour: each decision is a function of one snapshot, and the brief `isLoading = true` inside `login` is not observable in the model.
- Dates are integer day offsets from today. `getDateMinusDays`/`getDatePlusDays`, the `Math.ceil` millisecond division and `toLocaleDateString` are clock and time-zone dependent. `MockData.CalculateStatus` takes the integer day difference as its input. The demo assets use their nominal offsets. The real difference can be one day off depending on the time of day and the time zone.
- `toLowerCase` is modelled for ASCII letters only. `password.length` counts characters, not UTF-16 code units.
- Route matching uses exact string equality with the static paths. React Router's case-insensitive and trailing-slash matching is not modelled.
- Provider wiring is not modelled. src/main.tsx:12 renders `App` without an `AuthProvider`, so `useAuth` at src/App.tsx:19 throws, as src/contexts/AuthContext.tsx:17-19 specifies.
- `signUp` is an external call whose result is an input. The context at src/contexts/AuthContext.tsx:5-11 does not provide it, so src/pages/Login.tsx:69 calls `undefined`. Every sign-up with a password of at least 6 characters therefore throws a `TypeError` and ends in the failure branch; `SignUpResult.SignedUp` cannot occur in this program. The switch to the login tab after sign-up is a DOM click and is not modelled.
- `AppLayout.Layout.HandleLogout`: the catch branch is not modelled, because `logout` itself catches every storage fault and never throws.
