/** The top-level view state machine (App.js): which screen is shown, the
    signed-in user, the single notification slot and the theme flag. */
module App {
  import opened Common
  import Login

  datatype View = LoginView | RegisterView | DashboardView

  /** The user as the application keeps it. */
  datatype Profile = Profile(username: string, email: string)

  datatype Screen = LoginScreen | RegisterScreen | DashboardScreen

  class AppState {
    var currentView: View
    var user: Option<Profile>
    var darkMode: bool
    var notification: Option<Note>

    /** The initial state; `stored` is the saved 'darkMode' entry. */
    constructor (stored: Option<string>)
      ensures currentView == LoginView && user == None && notification == None
      ensures darkMode <==> stored == Some("true")
    {
      currentView, user, notification := LoginView, None, None;
      darkMode := stored == Some("true");
    }

    /** The mount effect: with a stored token and `isAuthenticated()`, the
        current user is fetched (`current`); a failure logs out and returns
        to the login view. `fetched` says whether the fetch ran and
        `loggedOut` whether `logout` was called. */
    method Bootstrap(token: Option<string>, authenticated: bool, current: Reply<Profile>)
      returns (fetched: bool, loggedOut: bool)
      modifies this`user, this`currentView
      ensures fetched <==> Truthy(token) && authenticated
      ensures !fetched ==> !loggedOut && user == old(user) && currentView == old(currentView)
      ensures fetched && current.Resolved? ==>
        !loggedOut && user == Some(current.value) && currentView == DashboardView
      ensures fetched && current.Rejected? ==>
        loggedOut && user == old(user) && currentView == LoginView
    {
      fetched, loggedOut := false, false;
      if Truthy(token) && authenticated {
        fetched := true;
        if current.Resolved? {
          user := Some(current.value);
          currentView := DashboardView;
        } else {
          loggedOut := true;
          currentView := LoginView;
        }
      }
    }

    /** `showNotification`: the new notification replaces any earlier one. */
    method ShowNotification(message: string, kind: Option<Kind>)
      modifies this`notification
      ensures notification == Some(Notice(message, kind))
    {
      notification := Some(Notice(message, kind));
    }

    /** The notification's `onClose`. */
    method CloseNotification()
      modifies this`notification
      ensures notification == None
    {
      notification := None;
    }

    /** `handleLoginSuccess`: the user is exactly the response's username
        and email, and the dashboard view is selected. */
    method HandleLoginSuccess(response: Login.LoginResponse)
      modifies this`user, this`currentView
      ensures user == Some(Profile(response.username, response.email))
      ensures currentView == DashboardView
    {
      user := Some(Profile(response.username, response.email));
      currentView := DashboardView;
    }

    method HandleRegisterSuccess()
      modifies this`currentView
      ensures currentView == LoginView
    {
      currentView := LoginView;
    }

    /** The login screen's link to the register screen. */
    method SwitchToRegister()
      modifies this`currentView
      ensures currentView == RegisterView
    {
      currentView := RegisterView;
    }

    /** The register screen's link back to the login screen. */
    method SwitchToLogin()
      modifies this`currentView
      ensures currentView == LoginView
    {
      currentView := LoginView;
    }

    /** The dashboard's theme toggle. */
    method SetDarkMode(on: bool)
      modifies this`darkMode
      ensures darkMode == on
    {
      darkMode := on;
    }

    /** The three render guards, in order: at most one screen is shown,
        and the dashboard needs both its view and a user. */
    function Rendered(): (screens: seq<Screen>)
      reads this
      ensures |screens| <= 1
      ensures LoginScreen in screens <==> currentView == LoginView
      ensures RegisterScreen in screens <==> currentView == RegisterView
      ensures DashboardScreen in screens <==> currentView == DashboardView && user.Some?
    {
      (if currentView == LoginView then [LoginScreen] else [])
      + (if currentView == RegisterView then [RegisterScreen] else [])
      + (if currentView == DashboardView && user.Some? then [DashboardScreen] else [])
    }
  }
}
