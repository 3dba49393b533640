/** The login form and its ordered validation. */
module LoginPage {
  import opened Common
  import opened Text
  import opened Types
  import opened Session
  import AppRoutes

  const NameMissing: string := "Please enter your full name."
  const ZpMissing: string := "Please enter your ZP or Voltron Number."
  const RoleMissing: string := "Please select your role."

  datatype LoginCheck = Rejected(message: string) | Accepted(user: User)

  /** The early-return checks, in order: name, then ZP number, then role. */
  function CheckLogin(name: string, zpNumber: string, role: Option<UserRole>): (c: LoginCheck)
    ensures c.Accepted? <==> Trim(name) != [] && Trim(zpNumber) != [] && role.Some?
    ensures c.Accepted? ==> c.user == User(Trim(name), role.value, Trim(zpNumber))
    ensures c.Rejected? ==> c.message == (if Trim(name) == [] then NameMissing
                                          else if Trim(zpNumber) == [] then ZpMissing
                                          else RoleMissing)
  {
    if Trim(name) == [] then Rejected(NameMissing)
    else if Trim(zpNumber) == [] then Rejected(ZpMissing)
    else if role.None? then Rejected(RoleMissing)
    else Accepted(User(Trim(name), role.value, Trim(zpNumber)))
  }

  /** A missing name is reported whatever else is missing, and a missing ZP
      number before a missing role. */
  lemma FirstFailureWins(name: string, zpNumber: string, role: Option<UserRole>)
    ensures Trim(name) == [] ==> CheckLogin(name, zpNumber, role) == Rejected(NameMissing)
    ensures Trim(name) != [] && Trim(zpNumber) == [] ==> CheckLogin(name, zpNumber, role) == Rejected(ZpMissing)
  {
  }

  class LoginForm {
    var error: string

    constructor ()
      ensures error == ""
    {
      error := "";
    }

    /** `handleSubmit`: clear the error, check, then log in and go to "/". */
    method HandleSubmit(session: AuthSession, name: string, zpNumber: string, role: Option<UserRole>)
      returns (navigateTo: Option<AppRoutes.RoutePath>)
      modifies this, session
      ensures CheckLogin(name, zpNumber, role).Rejected? ==>
        && error == CheckLogin(name, zpNumber, role).message
        && session.user == old(session.user) && navigateTo == None
      ensures CheckLogin(name, zpNumber, role).Accepted? ==>
        && error == ""
        && session.user == Some(CheckLogin(name, zpNumber, role).user)
        && navigateTo == Some(AppRoutes.RootPath)
    {
      error := "";
      var check := CheckLogin(name, zpNumber, role);
      if check.Rejected? {
        error := check.message;
        return None;
      }
      session.Login(check.user.name, check.user.role, check.user.zpNumber);
      navigateTo := Some(AppRoutes.RootPath);
    }
  }
}
