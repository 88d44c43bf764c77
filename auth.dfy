/** The mock session provider: it accepts any non-empty credentials and keeps
    the signed-in user in memory. */
module Auth {
  import opened Wrappers

  /** The session's user record. It carries no role tag. */
  datatype User = User(id: int, name: string, email: string)

  /** The fixed identity every mock sign-in produces. */
  const MockUserId: int := 1
  const MockUserName: string := "Usuário Teste"

  class AuthState {
    var user: Option<User>

    constructor ()
      ensures user == None
    {
      user := None;
    }

    /** `!!user`: a user object is always truthy. */
    function IsAuthenticated(): (r: bool)
      reads this
      ensures r <==> user.Some?
    {
      user != None
    }

    /** Signs in with the fixed mock identity when both fields are filled. */
    method Login(email: string, password: string) returns (ok: bool)
      modifies this
      ensures ok <==> email != "" && password != ""
      ensures ok ==> user == Some(User(MockUserId, MockUserName, email))
      ensures !ok ==> user == old(user)
    {
      if email != "" && password != "" {
        user := Some(User(MockUserId, MockUserName, email));
        ok := true;
      } else {
        ok := false;
      }
    }

    /** Signs up and in at once when all three fields are filled. */
    method Register(name: string, email: string, password: string) returns (ok: bool)
      modifies this
      ensures ok <==> name != "" && email != "" && password != ""
      ensures ok ==> user == Some(User(MockUserId, name, email))
      ensures !ok ==> user == old(user)
    {
      if name != "" && email != "" && password != "" {
        user := Some(User(MockUserId, name, email));
        ok := true;
      } else {
        ok := false;
      }
    }

    method Logout()
      modifies this
      ensures user == None && !IsAuthenticated()
    {
      user := None;
    }
  }
}
