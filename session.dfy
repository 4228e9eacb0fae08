/** The top-level application component: the signed-in operator's session,
    its persisted copy, the selected tab, the login error and the login
    modal, and which main view these select. */
module Session {
  import opened Wrappers

  /** The session record `{username, token}` held in memory and persisted. */
  datatype User = User(username: string, token: string)

  /** The navigation tabs. */
  datatype Tab = Dashboard | Teams | Crud

  /** How `POST /login` ended: the response body's `username` and `token`,
      or a rejection carrying the body's `error` field if it had one. */
  datatype LoginOutcome =
    | Accepted(username: string, token: string)
    | Rejected(serverError: Option<string>)

  /** The main view under the header. */
  datatype Screen =
    | DashboardView
    | TeamListView
    | AllocationForm(token: string)
    | MustLogIn

  const MissingCredentials := "Please enter username and password"
  const GenericLoginFailure := "Login failed"

  /** Both credentials are non-empty (an empty string is falsy). */
  predicate CredentialsGiven(username: string, password: string) {
    username != "" && password != ""
  }

  /** The error shown after a rejected login: the server's reason when it gave
      a non-empty one, the generic message otherwise. It is never empty, so a
      rejected login always displays an error. */
  function FailureMessage(serverError: Option<string>): (m: string)
    ensures m != ""
    ensures serverError.Some? && serverError.value != "" ==> m == serverError.value
    ensures serverError.None? || serverError.value == "" ==> m == GenericLoginFailure
  {
    if serverError.Some? && serverError.value != "" then serverError.value else GenericLoginFailure
  }

  /** The main view for a tab and a session: the allocation form is shown
      exactly when the allocation tab is selected and a session exists, and it
      is given that session's token; without a session the allocation tab
      shows the fixed log-in message. */
  function MainView(tab: Tab, user: Option<User>): (s: Screen)
    ensures s.AllocationForm? <==> tab == Crud && user.Some?
    ensures s.AllocationForm? ==> s.token == user.value.token
    ensures s == MustLogIn <==> tab == Crud && user.None?
    ensures s == DashboardView <==> tab == Dashboard
    ensures s == TeamListView <==> tab == Teams
  {
    match tab
    case Dashboard => DashboardView
    case Teams => TeamListView
    case Crud => if user.Some? then AllocationForm(user.value.token) else MustLogIn
  }

  class App {
    var tab: Tab
    var user: Option<User>
    /** The `localStorage` entry `user`. */
    var stored: Option<User>
    var error: string
    var showLoginModal: bool

    /** The state at mount, before any session is restored; `stored` is
        whatever the browser kept. */
    constructor (stored: Option<User>)
      ensures tab == Dashboard && user == None && this.stored == stored
      ensures error == "" && !showLoginModal
    {
      tab := Dashboard;
      user := None;
      this.stored := stored;
      error := "";
      showLoginModal := false;
    }

    /** The main view the current state selects. */
    function View(): Screen
      reads this
    {
      MainView(tab, user)
    }

    /** Log in. With a credential missing only the error changes and no request
        is made (`requested` is false). Otherwise the request is made and
        `outcome` is its result: acceptance installs and persists the session,
        clears the error, goes to the dashboard and closes the modal; rejection
        clears the session and its persisted copy whatever they held and shows
        the failure message. */
    method Login(username: string, password: string, outcome: LoginOutcome) returns (requested: bool)
      modifies this
      ensures requested <==> CredentialsGiven(username, password)
      ensures !requested ==>
        && error == MissingCredentials
        && user == old(user) && stored == old(stored)
        && tab == old(tab) && showLoginModal == old(showLoginModal)
      ensures requested && outcome.Accepted? ==>
        && user == Some(User(outcome.username, outcome.token))
        && stored == user
        && error == ""
        && tab == Dashboard
        && !showLoginModal
      ensures requested && outcome.Rejected? ==>
        && user == None && stored == None
        && error == FailureMessage(outcome.serverError)
        && tab == old(tab) && showLoginModal == old(showLoginModal)
        && !View().AllocationForm?
    {
      if !CredentialsGiven(username, password) {
        error := MissingCredentials;
        return false;
      }
      requested := true;
      match outcome
      case Accepted(name, token) =>
        var userData := User(name, token);
        user := Some(userData);
        stored := Some(userData);
        error := "";
        tab := Dashboard;
        showLoginModal := false;
      case Rejected(serverError) =>
        error := FailureMessage(serverError);
        user := None;
        stored := None;
    }

    /** Log out: no session, no persisted copy, back to the dashboard. */
    method Logout()
      modifies this
      ensures user == None && stored == None && tab == Dashboard
      ensures error == old(error) && showLoginModal == old(showLoginModal)
      ensures View() == DashboardView
    {
      user := None;
      stored := None;
      tab := Dashboard;
    }

    /** Open the login modal with a cleared error. */
    method OpenLoginModal()
      modifies this
      ensures error == "" && showLoginModal
      ensures tab == old(tab) && user == old(user) && stored == old(stored)
    {
      error := "";
      showLoginModal := true;
    }

    /** Close the login modal; the error stays. */
    method CloseLoginModal()
      modifies this
      ensures !showLoginModal
      ensures tab == old(tab) && user == old(user) && stored == old(stored) && error == old(error)
    {
      showLoginModal := false;
    }

    /** A navigation button. The allocation tab's button is only offered to a
        signed-in operator. */
    method SelectTab(t: Tab)
      requires t == Crud ==> user.Some?
      modifies this
      ensures tab == t
      ensures user == old(user) && stored == old(stored) && error == old(error)
      ensures showLoginModal == old(showLoginModal)
    {
      tab := t;
    }
  }

  /** A session "alice" is in place and "bob" then fails to log in: the
      session is gone rather than left as "alice", in memory and in storage. */
  method FailedLoginEndsPriorSession() returns (user: Option<User>, stored: Option<User>, error: string)
    ensures user == None && stored == None
    ensures error == "wrong password"
  {
    var app := new App(None);
    var ok := app.Login("alice", "secret", Accepted("alice", "t-alice"));
    assert app.user == Some(User("alice", "t-alice"));
    ok := app.Login("bob", "wrong", Rejected(Some("wrong password")));
    user, stored, error := app.user, app.stored, app.error;
  }
}
