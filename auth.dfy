/** The mock authentication session of context/AuthContext.tsx. `login`
    and `signup` accept any non-empty credentials and build the user
    locally; the user is persisted under the storage key 'techwiser_user'.
    `storedUser` is that storage entry, held as the user it encodes. The
    clock value `now` stands for `Date.now()` in the generated id. */
module Auth {
  import opened Wrappers
  import opened Text

  datatype User = User(id: string, email: string, name: string, avatar: string)

  const UserKeyName: string := "techwiser_user"
  const AvatarBase: string := "https://api.dicebear.com/7.x/avataaars/svg?seed="
  const InvalidCredentials: string := "Invalid credentials"
  const InvalidData: string := "Invalid data"

  function UserId(now: nat): string {
    "user_" + NatText(now)
  }

  predicate LoginAccepted(email: string, password: string) {
    email != "" && password != ""
  }

  predicate SignupAccepted(email: string, password: string, name: string) {
    email != "" && password != "" && name != ""
  }

  /** The user `login` builds: the name is the text before the first '@'. */
  function LoginUser(email: string, now: nat): (u: User)
    ensures u.email == email && '@' !in u.name
    ensures |u.name| <= |email| && u.name == email[..|u.name|]
    ensures |u.name| < |email| ==> email[|u.name|] == '@'
  {
    User(UserId(now), email, TextBefore(email, '@'), AvatarBase + email)
  }

  /** The user `signup` builds: the name as given. */
  function SignupUser(email: string, name: string, now: nat): User {
    User(UserId(now), email, name, AvatarBase + email)
  }

  /** Users created at different instants get different ids. */
  lemma UserIdsDistinct(m: nat, n: nat)
    requires m != n
    ensures UserId(m) != UserId(n)
  {
    if UserId(m) == UserId(n) {
      assert NatText(m) == UserId(m)[5..];
      NatTextInjective(m, n);
    }
  }

  class AuthSession {
    var user: Option<User>
    var storedUser: Option<User>
    var isLoading: bool

    /** The provider before its mount effect has run. */
    constructor (stored: Option<User>)
      ensures user == None && storedUser == stored && isLoading
    {
      user := None;
      storedUser := stored;
      isLoading := true;
    }

    /** The mount effect: a stored user is restored, loading ends. */
    method Restore()
      modifies this
      ensures user == (if storedUser.Some? then storedUser else old(user))
      ensures storedUser == old(storedUser) && !isLoading
    {
      if storedUser.Some? {
        user := storedUser;
      }
      isLoading := false;
    }

    predicate IsAuthenticated()
      reads this
    {
      user.Some?
    }

    method Login(email: string, password: string, now: nat) returns (r: Outcome<string>)
      modifies this
      ensures r.Pass? <==> LoginAccepted(email, password)
      ensures r.Pass? ==> user == Some(LoginUser(email, now)) && storedUser == user
      ensures r.Fail? ==> r.error == InvalidCredentials && user == old(user) && storedUser == old(storedUser)
      ensures isLoading == old(isLoading)
    {
      if LoginAccepted(email, password) {
        user := Some(LoginUser(email, now));
        storedUser := user;
        r := Pass;
      } else {
        r := Fail(InvalidCredentials);
      }
    }

    method Signup(email: string, password: string, name: string, now: nat) returns (r: Outcome<string>)
      modifies this
      ensures r.Pass? <==> SignupAccepted(email, password, name)
      ensures r.Pass? ==> user == Some(SignupUser(email, name, now)) && storedUser == user
      ensures r.Fail? ==> r.error == InvalidData && user == old(user) && storedUser == old(storedUser)
      ensures isLoading == old(isLoading)
    {
      if SignupAccepted(email, password, name) {
        user := Some(SignupUser(email, name, now));
        storedUser := user;
        r := Pass;
      } else {
        r := Fail(InvalidData);
      }
    }

    method Logout()
      modifies this
      ensures user == None && storedUser == None && !IsAuthenticated()
      ensures isLoading == old(isLoading)
    {
      user := None;
      storedUser := None;
    }
  }

  /** A login survives a reload: a fresh session restoring from the storage
      the first one wrote has the same user, and is authenticated exactly
      when the credentials were accepted. */
  method SessionSurvivesReload(email: string, password: string, now: nat)
    returns (before: Option<User>, after: Option<User>)
    ensures before == after
    ensures after.Some? <==> LoginAccepted(email, password)
  {
    var first := new AuthSession(None);
    first.Restore();
    var r := first.Login(email, password, now);
    var second := new AuthSession(first.storedUser);
    second.Restore();
    before, after := first.user, second.user;
  }
}
