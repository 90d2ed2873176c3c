/**
 * src/pages/Login.tsx: the loading branch, the already-signed-in redirect
 * effect, the fill-in buttons for the test identities, and the two submit
 * handlers with their `isSubmitting` / error-message bookkeeping.
 */
module LoginPage {
  import opened Types
  import opened AuthContext
  import opened Guards
  import opened AppRoutes

  const MIN_PASSWORD_LENGTH: nat := 6
  const PASSWORD_TOO_SHORT: string := "Password must be at least 6 characters long"
  const LOGIN_FAILED: string := "Login failed. Please try again."
  const SIGNUP_FAILED: string := "Signup failed. Please try again."

  /** What the page renders: the spinner while auth loads, else the tabbed forms. */
  datatype View = LoadingView | FormView

  function PageView(isLoading: bool): (v: View)
    ensures v == LoadingView <==> isLoading
  {
    if isLoading then LoadingView else FormView
  }

  /**
   * The navigation the page's effect performs for a context snapshot:
   * `navigate('/dashboard')`, a push (not a replace), once signed in and loaded.
   */
  function RedirectEffect(ctx: ContextValue): (nav: Option<Decision>)
    ensures nav.Some? <==> ctx.isAuthenticated && !ctx.isLoading
    ensures nav.Some? ==> nav.value == Redirect("/dashboard", false, None)
  {
    if ctx.isAuthenticated && !ctx.isLoading then Some(Redirect("/dashboard", false, None)) else None
  }

  /**
   * The page's own loading branch never shows inside the app: the route
   * table renders the login page only once auth has loaded, so the page
   * then shows its form; while loading, the app's loading view stands in.
   */
  lemma LoginPageShowsForm(ctx: ContextValue)
    ensures AppView(ctx, "/login") == Render(LoginPage, false) ==> PageView(ctx.isLoading) == FormView
    ensures ctx.isLoading ==> AppView(ctx, "/login") == Loading && PageView(ctx.isLoading) == LoadingView
  {
  }

  /**
   * The page's redirect effect duplicates the route table: whenever it would
   * navigate, the route table already replaces `/login` by `/dashboard`, and
   * `/dashboard` renders; and whenever the route table renders the page, the
   * effect does nothing.
   */
  lemma RedirectEffectAgreesWithRoutes(ctx: ContextValue)
    ensures RedirectEffect(ctx).Some? ==>
              AppView(ctx, "/login") == Redirect("/dashboard", true, None) &&
              AppView(ctx, RedirectEffect(ctx).value.to).Render?
    ensures AppView(ctx, "/login") == Render(LoginPage, false) ==> RedirectEffect(ctx) == None
  {
  }

  /** `error.message || fallback` */
  function ErrorText(message: string, fallback: string): string
  {
    if message != "" then message else fallback
  }

  /** The result of the external `signUp` call, which the page only awaits. */
  datatype SignUpResult = SignedUp | SignUpFailed(message: string)

  /** The credentials the "Use Admin Credentials" button fills in. */
  const ADMIN_FILL_EMAIL: string := "admin@example.com"
  /** The credentials the "Use Tech Credentials" button fills in. */
  const TECH_FILL_EMAIL: string := "tech@example.com"
  const FILL_PASSWORD: string := "password123"

  /** Both fill-in buttons produce credentials that sign in, as the matching role. */
  lemma FilledCredentialsSignIn(s: AuthState)
    ensures LoginStep(s, ADMIN_FILL_EMAIL, FILL_PASSWORD).1 == Ok
    ensures LoginStep(s, ADMIN_FILL_EMAIL, FILL_PASSWORD).0.user.value.role == Admin
    ensures LoginStep(s, TECH_FILL_EMAIL, FILL_PASSWORD).1 == Ok
    ensures LoginStep(s, TECH_FILL_EMAIL, FILL_PASSWORD).0.user.value.role == Technician
  {
    LoginSuccess(s, 0);
    LoginSuccess(s, 1);
  }

  /** The form state of one mounted login page. */
  class LoginForm {
    var email: string
    var password: string
    var name: string
    var isSubmitting: bool
    var loginError: Option<string>
    var signupError: Option<string>

    constructor ()
      ensures email == "" && password == "" && name == ""
      ensures !isSubmitting && loginError == None && signupError == None
    {
      email, password, name := "", "", "";
      isSubmitting := false;
      loginError, signupError := None, None;
    }

    method FillAdminCredentials()
      modifies this`email, this`password
      ensures email == ADMIN_FILL_EMAIL && password == FILL_PASSWORD
    {
      email := ADMIN_FILL_EMAIL;
      password := FILL_PASSWORD;
    }

    method FillTechCredentials()
      modifies this`email, this`password
      ensures email == TECH_FILL_EMAIL && password == FILL_PASSWORD
    {
      email := TECH_FILL_EMAIL;
      password := FILL_PASSWORD;
    }

    /**
     * `handleLogin`: clear the login error, call `login`, show its message on
     * failure; `isSubmitting` is false again on every path.
     */
    method HandleLogin(auth: AuthProvider)
      modifies this`isSubmitting, this`loginError, auth, auth.storage
      ensures var (t, o) := LoginStep(old(auth.State()), email, password);
              auth.State() == t &&
              loginError == (if o.Ok? then None else Some(ErrorText(Message(o.error), LOGIN_FAILED)))
      ensures !isSubmitting
    {
      isSubmitting := true;
      loginError := None;
      var outcome := auth.Login(email, password);
      if outcome.Threw? {
        loginError := Some(ErrorText(Message(outcome.error), LOGIN_FAILED));
      }
      isSubmitting := false;
    }

    /**
     * `handleSignUp`: clear the sign-up error; a password shorter than six
     * characters sets the length error and returns before `signUp` is
     * called; otherwise `signUp`'s failure message is shown. Returns whether
     * `signUp` was called.
     */
    method HandleSignUp(result: SignUpResult) returns (called: bool)
      modifies this`isSubmitting, this`signupError
      ensures called <==> |password| >= MIN_PASSWORD_LENGTH
      ensures !called ==> signupError == Some(PASSWORD_TOO_SHORT)
      ensures called ==> signupError == (match result
                                         case SignedUp => None
                                         case SignUpFailed(m) => Some(ErrorText(m, SIGNUP_FAILED)))
      ensures !isSubmitting
    {
      isSubmitting := true;
      signupError := None;
      if |password| < MIN_PASSWORD_LENGTH {
        signupError := Some(PASSWORD_TOO_SHORT);
        isSubmitting := false;
        return false;
      }
      called := true;
      if result.SignUpFailed? {
        signupError := Some(ErrorText(result.message, SIGNUP_FAILED));
      }
      isSubmitting := false;
    }
  }

  /**
   * Pressing "Use Admin Credentials" and then "Sign In" signs in as the
   * admin with no error shown. The route table then replaces `/login` with
   * `/dashboard`, which renders in the layout; the login page is no longer
   * rendered, so its own redirect effect never runs.
   */
  method AdminButtonSignsIn() returns (role: Option<UserRole>, error: Option<string>, nav: Decision, landing: Decision)
    ensures role == Some(Admin) && error == None
    ensures nav == Redirect("/dashboard", true, None)
    ensures landing == Render(DashboardPage, true)
  {
    var store := new LocalStorage(Empty, true);
    var auth := new AuthProvider(store);
    var _ := auth.LoadUserFromStorage();
    var form := new LoginForm();
    form.FillAdminCredentials();
    FilledCredentialsSignIn(auth.State());
    form.HandleLogin(auth);
    role := if auth.user.Some? then Some(auth.user.value.role) else None;
    error := form.loginError;
    nav := AppView(Value(auth.State()), "/login");
    landing := AppView(Value(auth.State()), nav.to);
  }
}
