/** The session state (`logged_in`, `page`), the form handlers that update it,
    and the routing that picks the page to draw (main.py:73-77, 92-133, 231-244).
    Routing reads only `page`; `logged_in` is written but never read. */
module Session {
  import opened Credentials

  /** The values the source ever stores in `page`. */
  datatype Page = LoginPage | SignupPage | TrendPage

  /** The page function routing runs. */
  datatype Screen = LoginScreen | SignupScreen | DashboardScreen

  /** main.py:239-244: "login" and "signup" have their own page, anything
      else falls through to the dashboard. */
  function Route(p: Page): (s: Screen)
    ensures s == DashboardScreen <==> p != LoginPage && p != SignupPage
  {
    match p
    case LoginPage => LoginScreen
    case SignupPage => SignupScreen
    case TrendPage => DashboardScreen
  }

  datatype State = State(loggedIn: bool, page: Page)

  /** main.py:73-77. */
  const Initial: State := State(false, LoginPage)

  /** The user actions, each tied to a widget of one screen. */
  datatype Event =
    | SubmitLogin(email: string, password: string)
    | OpenSignup
    | SubmitSignup(email: string, password: string, confirm: string)
    | BackToLogin
    | Logout

  /** The screen whose widget raises the event. */
  function ScreenOf(e: Event): Screen
  {
    match e
    case SubmitLogin(_, _) => LoginScreen
    case OpenSignup => LoginScreen
    case SubmitSignup(_, _, _) => SignupScreen
    case BackToLogin => SignupScreen
    case Logout => DashboardScreen
  }

  /** One interaction: the new session state and user table. An event whose
      widget is not on the routed screen cannot occur and changes nothing. */
  function Step(s: State, users: seq<Credential>, e: Event): (r: (State, seq<Credential>))
    ensures r.0 != s || r.1 != users ==> ScreenOf(e) == Route(s.page)
    ensures r.1 == users || (e.SubmitSignup? && r.1 == users + [Credential(e.email, e.password)])
    ensures r.0.loggedIn && !s.loggedIn ==> e.SubmitLogin? && AnyMatch(users, e.email, e.password)
  {
    if ScreenOf(e) != Route(s.page) then (s, users)
    else match e
      case SubmitLogin(email, password) =>
        if AnyMatch(users, email, password) then (State(true, TrendPage), users) else (s, users)
      case OpenSignup => (s.(page := SignupPage), users)
      case SubmitSignup(email, password, confirm) =>
        if SignupVerdict(users, email, password, confirm) == Created
        then (s.(page := LoginPage), AfterSignup(users, email, password, confirm))
        else (s, users)
      case BackToLogin => (s.(page := LoginPage), users)
      case Logout => (State(false, LoginPage), users)
  }

  /** The session after a sequence of events, from the initial state. */
  function Run(users: seq<Credential>, es: seq<Event>): (State, seq<Credential>)
    decreases |es|
  {
    if |es| == 0 then (Initial, users)
    else
      var (s, u) := Run(users, es[..|es| - 1]);
      Step(s, u, es[|es| - 1])
  }

  /** `logged_in` is true exactly when the dashboard page is selected. */
  predicate LoginConsistent(s: State)
  {
    s.loggedIn <==> s.page == TrendPage
  }

  lemma StepKeepsLoginConsistent(s: State, users: seq<Credential>, e: Event)
    requires LoginConsistent(s)
    ensures LoginConsistent(Step(s, users, e).0)
  {
  }

  lemma {:induction false} RunKeepsLoginConsistent(users: seq<Credential>, es: seq<Event>)
    ensures LoginConsistent(Run(users, es).0)
    decreases |es|
  {
    if |es| > 0 {
      RunKeepsLoginConsistent(users, es[..|es| - 1]);
      var (s, u) := Run(users, es[..|es| - 1]);
      StepKeepsLoginConsistent(s, u, es[|es| - 1]);
    }
  }

  /** A step that enters the dashboard is a login whose pair is stored; a
      failed login leaves session and table as they were. */
  lemma OnlyLoginEntersDashboard(s: State, users: seq<Credential>, e: Event)
    ensures s.page != TrendPage && Step(s, users, e).0.page == TrendPage ==>
      e.SubmitLogin? && AnyMatch(users, e.email, e.password)
    ensures e.SubmitLogin? && !AnyMatch(users, e.email, e.password) ==> Step(s, users, e) == (s, users)
  {
  }

  /** Event `k` of `es` is a login raised on the login page whose pair is in
      the table at that point, and it takes the session to the dashboard. */
  ghost predicate LoginSucceedsAt(users: seq<Credential>, es: seq<Event>, k: nat)
    requires k < |es|
  {
    && es[k].SubmitLogin?
    && AnyMatch(Run(users, es[..k]).1, es[k].email, es[k].password)
    && Run(users, es[..k]).0.page == LoginPage
    && Run(users, es[..k + 1]).0.page == TrendPage
  }

  /** The dashboard is only ever shown after a successful login. */
  lemma {:induction false} DashboardOnlyAfterLogin(users: seq<Credential>, es: seq<Event>)
    requires Route(Run(users, es).0.page) == DashboardScreen
    ensures exists k :: 0 <= k < |es| && LoginSucceedsAt(users, es, k)
    decreases |es|
  {
    var last := |es| - 1;
    var front := es[..last];
    var (s, u) := Run(users, front);
    OnlyLoginEntersDashboard(s, u, es[last]);
    assert es[..last] == front;
    if s.page == TrendPage {
      DashboardOnlyAfterLogin(users, front);
      var k :| 0 <= k < |front| && LoginSucceedsAt(users, front, k);
      assert front[..k] == es[..k];
      assert front[..k + 1] == es[..k + 1];
      assert LoginSucceedsAt(users, es, k);
    } else {
      assert es[..last + 1] == es;
      assert LoginSucceedsAt(users, es, last);
    }
  }

  /** Signing up over `Step` appends exactly the new pair when accepted and
      returns the user to the login page; a rejected attempt changes nothing. */
  lemma SignupStep(s: State, users: seq<Credential>, email: string, password: string, confirm: string)
    requires s.page == SignupPage
    ensures var (t, u) := Step(s, users, SubmitSignup(email, password, confirm));
      if !EmailTaken(users, email) && password == confirm
      then t == s.(page := LoginPage) && u == users + [Credential(email, password)]
      else t == s && u == users
  {
  }

  /** The Streamlit session: the two state fields and the user table the
      handlers consult and extend. */
  class App {
    var loggedIn: bool
    var page: Page
    const users: UserStore

    /** A new session (main.py:73-77). */
    constructor (users: UserStore)
      ensures loggedIn == false && page == LoginPage && this.users == users
    {
      loggedIn := false;
      page := LoginPage;
      this.users := users;
    }

    function Current(): State
      reads this
    {
      State(loggedIn, page)
    }

    /** The login form (main.py:92-99). */
    method SubmitLogin(email: string, password: string) returns (ok: bool)
      requires page == LoginPage
      modifies this
      ensures ok <==> exists i :: 0 <= i < |users.rows| &&
                        users.rows[i].email == email && users.rows[i].password == password
      ensures ok ==> loggedIn && page == TrendPage
      ensures !ok ==> loggedIn == old(loggedIn) && page == old(page)
      ensures (Current(), users.rows) == Step(old(Current()), users.rows, Event.SubmitLogin(email, password))
    {
      ok := AnyMatch(users.rows, email, password);
      if ok {
        loggedIn := true;
        page := TrendPage;
      }
    }

    /** The "Create New Account" button (main.py:102-104). */
    method OpenSignup()
      requires page == LoginPage
      modifies this
      ensures page == SignupPage && loggedIn == old(loggedIn)
      ensures (Current(), users.rows) == Step(old(Current()), users.rows, Event.OpenSignup)
    {
      page := SignupPage;
    }

    /** The signup form (main.py:119-129). */
    method SubmitSignup(email: string, password: string, confirm: string) returns (outcome: SignupOutcome)
      requires page == SignupPage
      modifies this, users
      ensures outcome == SignupVerdict(old(users.rows), email, password, confirm)
      ensures users.rows == if outcome == Created then old(users.rows) + [Credential(email, password)]
                            else old(users.rows)
      ensures page == (if outcome == Created then LoginPage else old(page)) && loggedIn == old(loggedIn)
      ensures DistinctEmails(old(users.rows)) ==> DistinctEmails(users.rows)
      ensures (Current(), users.rows) ==
              Step(old(Current()), old(users.rows), Event.SubmitSignup(email, password, confirm))
    {
      if EmailTaken(users.rows, email) {
        outcome := UserExists;
      } else if password != confirm {
        outcome := PasswordMismatch;
      } else {
        if DistinctEmails(users.rows) {
          SignupKeepsEmailsDistinct(users.rows, email, password, confirm);
        }
        users.Save(email, password);
        outcome := Created;
        page := LoginPage;
      }
    }

    /** The "Back to Login" button (main.py:131-133). */
    method BackToLogin()
      requires page == SignupPage
      modifies this
      ensures page == LoginPage && loggedIn == old(loggedIn)
      ensures (Current(), users.rows) == Step(old(Current()), users.rows, Event.BackToLogin)
    {
      page := LoginPage;
    }

    /** The "Logout" button at the foot of the dashboard (main.py:231-234). */
    method Logout()
      requires page == TrendPage
      modifies this
      ensures loggedIn == false && page == LoginPage
      ensures (Current(), users.rows) == Step(old(Current()), users.rows, Event.Logout)
    {
      loggedIn := false;
      page := LoginPage;
    }

    /** Routing (main.py:239-244): only `page` decides what is drawn. */
    method Render() returns (screen: Screen)
      ensures screen == Route(page)
      ensures screen == DashboardScreen <==> page == TrendPage
    {
      if page == LoginPage {
        screen := LoginScreen;
      } else if page == SignupPage {
        screen := SignupScreen;
      } else {
        screen := DashboardScreen;
      }
    }
  }
}
