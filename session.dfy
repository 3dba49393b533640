/** The login session held by the authentication context. */
module Session {
  import opened Common
  import opened Types

  /** The identity claim a login records; nothing about it is verified. */
  datatype User = User(name: string, role: UserRole, zpNumber: string)

  class AuthSession {
    var user: Option<User>

    /** The session starts from the stored user, if there is one. */
    constructor (stored: Option<User>)
      ensures user == stored
    {
      user := stored;
    }

    predicate IsAuthenticated()
      reads this
    {
      user.Some?
    }

    /** Records exactly the given triple, with no check. */
    method Login(name: string, role: UserRole, zpNumber: string)
      modifies this
      ensures user == Some(User(name, role, zpNumber))
      ensures IsAuthenticated()
    {
      user := Some(User(name, role, zpNumber));
    }

    method Logout()
      modifies this
      ensures user == None
      ensures !IsAuthenticated()
    {
      user := None;
    }
  }

  /** Two logins and a logout on a fresh session: the second login replaces
      the first entirely, and the logout leaves no user. */
  method LoginTwiceThenLogout(first: User, second: User)
    returns (afterFirst: Option<User>, afterSecond: Option<User>, afterLogout: Option<User>)
    ensures afterFirst == Some(first)
    ensures afterSecond == Some(second)
    ensures afterLogout == None
  {
    var session := new AuthSession(None);
    session.Login(first.name, first.role, first.zpNumber);
    afterFirst := session.user;
    session.Login(second.name, second.role, second.zpNumber);
    afterSecond := session.user;
    session.Logout();
    afterLogout := session.user;
  }
}
