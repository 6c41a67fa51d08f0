/**
  The top-level view router: which of the three views is shown and whether
  the user counts as signed in. Each view hands its callbacks to the router,
  so a callback can only fire while the view that renders it is current.
*/
module Router {

  datatype ViewType = Login | Register | Dashboard

  /** The registration form's four fields, forwarded without any check. */
  datatype RegistrationForm = RegistrationForm(fullName: string, email: string, password: string, confirmPassword: string)

  /** The callbacks the router passes down to its views. */
  datatype Callback =
    | OnLogin(email: string, password: string)
    | OnRegisterClick
    | OnRegister(data: RegistrationForm)
    | OnLoginClick
    | OnLogout

  datatype RouterState = RouterState(currentView: ViewType, isAuthenticated: bool)

  const Initial: RouterState := RouterState(Login, false)

  /** The callbacks rendered by each view: exactly one view is on screen, and only its callbacks can fire. */
  predicate Exposes(view: ViewType, cb: Callback) {
    match view
    case Login => cb.OnLogin? || cb.OnRegisterClick?
    case Register => cb.OnRegister? || cb.OnLoginClick?
    case Dashboard => cb.OnLogout?
  }

  /** The router's invariant: signed in exactly when the dashboard is shown. */
  predicate Consistent(s: RouterState) {
    s.isAuthenticated <==> s.currentView == Dashboard
  }

  /**
    What each handler does to the state, whichever view is current: logging in
    and out set both cells; the two navigation links and registering only move
    to another view and keep the authentication flag.
  */
  function Handle(s: RouterState, cb: Callback): (r: RouterState)
    ensures cb.OnLogin? ==> r == RouterState(Dashboard, true)
    ensures cb == OnLogout ==> r == RouterState(Login, false)
    ensures cb == OnRegisterClick ==> r.currentView == Register && r.isAuthenticated == s.isAuthenticated
    ensures cb.OnRegister? || cb == OnLoginClick ==> r.currentView == Login && r.isAuthenticated == s.isAuthenticated
  {
    match cb
    case OnLogin(_, _) => RouterState(Dashboard, true)
    case OnRegisterClick => s.(currentView := Register)
    case OnRegister(_) => s.(currentView := Login)
    case OnLoginClick => s.(currentView := Login)
    case OnLogout => RouterState(Login, false)
  }

  /**
    One user action: a callback the current view does not render cannot fire
    and changes nothing. The invariant is kept, and the dashboard is left only
    by logging out.
  */
  function Next(s: RouterState, cb: Callback): (r: RouterState)
    ensures !Exposes(s.currentView, cb) ==> r == s
    ensures Consistent(s) ==> Consistent(r)
    ensures s.currentView == Dashboard && r.currentView != Dashboard ==> cb == OnLogout
    ensures s.currentView == Login && cb.OnLogin? ==> r == RouterState(Dashboard, true)
    ensures s.currentView == Dashboard && cb == OnLogout ==> r == Initial
  {
    if Exposes(s.currentView, cb) then Handle(s, cb) else s
  }

  /** The state after a sequence of user actions, oldest first. */
  function Run(s: RouterState, cbs: seq<Callback>): (r: RouterState)
    ensures Consistent(s) ==> Consistent(r)
    decreases |cbs|
  {
    if cbs == [] then s else Run(Next(s, cbs[0]), cbs[1..])
  }

  ghost predicate Reachable(s: RouterState) {
    exists cbs :: Run(Initial, cbs) == s
  }

  /** Every reachable state is consistent, and every consistent state is reachable. */
  lemma ReachableIffConsistent(s: RouterState)
    ensures Reachable(s) <==> Consistent(s)
  {
    if Consistent(s) {
      var cbs: seq<Callback>;
      match s.currentView {
        case Login =>
          cbs := [];
        case Register =>
          cbs := [OnRegisterClick];
          assert Run(Initial, cbs) == Run(Next(Initial, OnRegisterClick), []);
        case Dashboard =>
          cbs := [OnLogin("", "")];
          assert Run(Initial, cbs) == Run(Next(Initial, OnLogin("", "")), []);
      }
      assert Run(Initial, cbs) == s;
    }
  }

  /** Logging in reaches the dashboard whatever the credentials. */
  lemma LoginIgnoresCredentials(s: RouterState, email1: string, password1: string, email2: string, password2: string)
    requires s.currentView == Login
    ensures Next(s, OnLogin(email1, password1)) == Next(s, OnLogin(email2, password2)) == RouterState(Dashboard, true)
  {
  }

  /** Every callback is rendered by exactly one view. */
  lemma OneViewPerCallback(cb: Callback)
    ensures exists v :: Exposes(v, cb)
    ensures forall v, w :: Exposes(v, cb) && Exposes(w, cb) ==> v == w
  {
    match cb {
      case OnLogin(_, _) => assert Exposes(Login, cb);
      case OnRegisterClick => assert Exposes(Login, cb);
      case OnRegister(_) => assert Exposes(Register, cb);
      case OnLoginClick => assert Exposes(Register, cb);
      case OnLogout => assert Exposes(Dashboard, cb);
    }
  }

  /** The router's two state cells, updated in place by the handlers. */
  class App {
    var currentView: ViewType
    var isAuthenticated: bool

    function State(): RouterState
      reads this
    {
      RouterState(currentView, isAuthenticated)
    }

    constructor ()
      ensures State() == Initial
    {
      currentView := Login;
      isAuthenticated := false;
    }

    /** Authentication is simulated: any credentials are accepted. */
    method HandleLogin(email: string, password: string)
      modifies this
      ensures isAuthenticated && currentView == Dashboard
    {
      isAuthenticated := true;
      currentView := Dashboard;
    }

    /** Registration is simulated: the form is ignored and the login view is shown. */
    method HandleRegister(data: RegistrationForm)
      modifies this`currentView
      ensures currentView == Login
    {
      currentView := Login;
    }

    method HandleLogout()
      modifies this
      ensures !isAuthenticated && currentView == Login
    {
      isAuthenticated := false;
      currentView := Login;
    }

    /** The login view's "create account" link. */
    method ShowRegister()
      modifies this`currentView
      ensures currentView == Register
    {
      currentView := Register;
    }

    /** The registration view's "back to login" link. */
    method ShowLogin()
      modifies this`currentView
      ensures currentView == Login
    {
      currentView := Login;
    }

    /** A user action on whatever view is on screen; callbacks of other views cannot fire. */
    method Dispatch(cb: Callback)
      modifies this
      ensures State() == Next(old(State()), cb)
      ensures old(Consistent(State())) ==> Consistent(State())
    {
      match currentView {
        case Login =>
          match cb {
            case OnLogin(email, password) => HandleLogin(email, password);
            case OnRegisterClick => ShowRegister();
            case _ =>
          }
        case Register =>
          match cb {
            case OnRegister(data) => HandleRegister(data);
            case OnLoginClick => ShowLogin();
            case _ =>
          }
        case Dashboard =>
          if cb == OnLogout {
            HandleLogout();
          }
      }
    }
  }
}
