/** `AuthService`: the signed-in user and whether a login has happened. */
module Auth {
  import opened Wrappers

  /** One call on the service: `login(user)` (the user may be null) or `logout()`. */
  datatype AuthCall<U> = Login(user: Option<U>) | Logout

  class AuthService<U> {
    var user: Option<U>
    var isAuthenticated: bool

    constructor ()
      ensures user == None && !isAuthenticated
    {
      user := None;
      isAuthenticated := false;
    }

    /** Authenticates even when `u` is null. */
    method Login(u: Option<U>)
      modifies this
      ensures user == u && isAuthenticated
    {
      user := u;
      isAuthenticated := true;
    }

    method Logout()
      modifies this
      ensures user == None && !isAuthenticated
    {
      user := None;
      isAuthenticated := false;
    }
  }

  /**
   * A fresh service receives `calls` in order. When the last call is a logout
   * it is back in its initial state; when it is a login it is authenticated
   * with that call's user.
   */
  method Replay<U>(calls: seq<AuthCall<U>>) returns (user: Option<U>, isAuthenticated: bool)
    ensures (|calls| == 0 || calls[|calls| - 1].Logout?) ==> user == None && !isAuthenticated
    ensures |calls| > 0 && calls[|calls| - 1].Login? ==> user == calls[|calls| - 1].user && isAuthenticated
  {
    var service := new AuthService<U>();
    var i := 0;
    while i < |calls|
      invariant 0 <= i <= |calls|
      invariant (i == 0 || calls[i - 1].Logout?) ==> service.user == None && !service.isAuthenticated
      invariant i > 0 && calls[i - 1].Login? ==> service.user == calls[i - 1].user && service.isAuthenticated
    {
      match calls[i] {
        case Login(u) => service.Login(u);
        case Logout => service.Logout();
      }
      i := i + 1;
    }
    user, isAuthenticated := service.user, service.isAuthenticated;
  }
}
