/**
 * The top-level router: a spinner while the authentication context is
 * loading, the task application once a user is signed in, and otherwise
 * one of the landing, sign-in and sign-up pages chosen by `currentPage`.
 * The pages move `currentPage` through the callbacks they are given.
 */
module AppRouter {
  import opened Types
  import AuthContext

  datatype PageType = Landing | Login | Signup | Dashboard

  datatype Screen = Spinner | TaskApp | LandingScreen | LoginScreen | SignupScreen | Blank

  /** The callbacks the router hands to its pages. */
  datatype Event =
    | GetStarted     // LandingPage onGetStarted
    | LoginSuccess   // LoginPage onLoginSuccess
    | SignupClick    // LoginPage onSignupClick
    | SignupSuccess  // SignupPage onSignupSuccess
    | LoginClick     // SignupPage onLoginClick

  /** The page each callback switches to. */
  function Target(e: Event): (p: PageType)
    ensures p != Landing
    ensures p == Dashboard <==> e == LoginSuccess || e == SignupSuccess
  {
    match e
    case GetStarted => Signup
    case LoginSuccess => Dashboard
    case SignupClick => Signup
    case SignupSuccess => Dashboard
    case LoginClick => Login
  }

  /** What the router renders. */
  function ScreenFor(isLoading: bool, isAuthenticated: bool, page: PageType): (s: Screen)
    ensures s == Spinner <==> isLoading
    ensures s == TaskApp <==> !isLoading && isAuthenticated
    ensures s == Blank <==> !isLoading && !isAuthenticated && page == Dashboard
    ensures s == LandingScreen <==> !isLoading && !isAuthenticated && page == Landing
    ensures s == LoginScreen <==> !isLoading && !isAuthenticated && page == Login
    ensures s == SignupScreen <==> !isLoading && !isAuthenticated && page == Signup
  {
    if isLoading then Spinner
    else if isAuthenticated then TaskApp
    else match page
      case Landing => LandingScreen
      case Login => LoginScreen
      case Signup => SignupScreen
      case Dashboard => Blank
  }

  /** The callbacks the rendered screen holds: only a page component has any. */
  function Offered(s: Screen): (es: set<Event>)
    ensures es == {} <==> s == Spinner || s == TaskApp || s == Blank
  {
    match s
    case LandingScreen => {GetStarted}
    case LoginScreen => {LoginSuccess, SignupClick}
    case SignupScreen => {SignupSuccess, LoginClick}
    case _ => {}
  }

  /** The page after a run of callbacks. */
  function Run(page: PageType, es: seq<Event>): PageType
    decreases |es|
  {
    if es == [] then page else Run(Target(es[0]), es[1..])
  }

  /** Once any callback has fired the router never shows the landing page again. */
  lemma {:induction false} RunNeverLanding(page: PageType, es: seq<Event>)
    requires es != []
    ensures Run(page, es) != Landing
    decreases |es|
  {
    if |es| > 1 {
      RunNeverLanding(Target(es[0]), es[1..]);
    }
  }

  /** A run ends on the page its last callback names. */
  lemma {:induction false} RunEndsAtLastTarget(page: PageType, es: seq<Event>)
    requires es != []
    ensures Run(page, es) == Target(es[|es| - 1])
    decreases |es|
  {
    if |es| > 1 {
      RunEndsAtLastTarget(Target(es[0]), es[1..]);
    }
  }

  /**
   * Signing out after a sign-in leaves the page at 'dashboard': the router
   * renders nothing and offers no callback, so only a reload leaves it.
   */
  lemma LogoutAfterLoginIsStuck(page: PageType, es: seq<Event>)
    requires es != [] && es[|es| - 1] in {LoginSuccess, SignupSuccess}
    ensures ScreenFor(false, false, Run(page, es)) == Blank
    ensures Offered(ScreenFor(false, false, Run(page, es))) == {}
  {
    RunEndsAtLastTarget(page, es);
  }

  /** While a request is loading the spinner replaces the page, whatever it is. */
  lemma LoadingHidesPages(isAuthenticated: bool, page: PageType)
    ensures Offered(ScreenFor(true, isAuthenticated, page)) == {}
  {
  }

  /**
   * A sign-in whose storage write throws.  `login` first sets the loading
   * flag, so while the request is pending the router shows the spinner and
   * the sign-in page, with the catch that would show the failure banner,
   * is unmounted.  The user is kept before the write throws, so once the
   * request settles the router shows the task application: a "failed"
   * sign-in signs the user in and no failure is shown.
   */
  method FailedLoginSignsIn(auth: AuthContext.AuthProvider, page: PageType, email: string, password: string,
                            now: Timestamp, createdAt: string)
    returns (during: Screen, threw: bool, after: Screen)
    modifies auth
    ensures during == Spinner && Offered(during) == {}
    ensures threw && after == TaskApp && auth.IsAuthenticated()
  {
    auth.BeginRequest();
    during := ScreenFor(auth.isLoading, auth.IsAuthenticated(), page);
    threw := auth.CompleteLogin(email, password, now, createdAt, false);
    after := ScreenFor(auth.isLoading, auth.IsAuthenticated(), page);
  }

  class Router {
    var currentPage: PageType

    constructor ()
      ensures currentPage == Landing
    {
      currentPage := Landing;
    }

    /** A callback fires: `setCurrentPage` with its target. */
    method Handle(e: Event)
      modifies this
      ensures currentPage == Target(e) && currentPage != Landing
    {
      match e
      case GetStarted => currentPage := Signup;
      case LoginSuccess => currentPage := Dashboard;
      case SignupClick => currentPage := Signup;
      case SignupSuccess => currentPage := Dashboard;
      case LoginClick => currentPage := Login;
    }

    function Render(isLoading: bool, isAuthenticated: bool): Screen
      reads this
    {
      ScreenFor(isLoading, isAuthenticated, currentPage)
    }
  }
}
