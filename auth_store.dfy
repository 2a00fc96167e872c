/** src/store/useAuthStore.ts: the client's session. Persistence to sessionStorage is not
    modelled. */
module AuthStore {
  import opened Wrappers

  class AuthState {
    var isAuthenticated: bool
    var sessionToken: Option<string>
    var userLabel: Option<string>

    /** Authenticated exactly when a token is held. */
    predicate Consistent()
      reads this
    {
      isAuthenticated <==> sessionToken.Some?
    }

    /** Signed out: no token, no label. */
    constructor ()
      ensures !isAuthenticated && sessionToken == None && userLabel == None
      ensures Consistent()
    {
      isAuthenticated := false;
      sessionToken := None;
      userLabel := None;
    }

    /** Stores exactly the given token and label, whatever was held before: a second login
        replaces the first. */
    method Login(token: string, newLabel: string)
      modifies this
      ensures isAuthenticated && sessionToken == Some(token) && userLabel == Some(newLabel)
      ensures Consistent()
    {
      isAuthenticated := true;
      sessionToken := Some(token);
      userLabel := Some(newLabel);
    }

    /** Back to the initial state from any state, so a second logout changes nothing. */
    method Logout()
      modifies this
      ensures !isAuthenticated && sessionToken == None && userLabel == None
      ensures Consistent()
    {
      isAuthenticated := false;
      sessionToken := None;
      userLabel := None;
    }
  }
}
