/** The session store: the current user and the "token" cookie behind it.
    In this revision the token is never decoded: any non-empty token stands
    for one fixed stub user. */
module AuthProvider {
  import opened Common

  datatype User = User(id: int, name: string, role: string, avatar: string)

  /** A cookie value and the lifetime in days it was written with (None for a
      cookie the browser already held when the page loaded). */
  datatype Cookie = Cookie(value: string, expiresDays: Option<nat>)

  /** The value `login` writes into the "token" cookie, and its lifetime. */
  const MockToken: string := "mocked.jwt.token"
  const TokenLifetimeDays: nat := 1

  /** The user every stored token decodes to. */
  const MockUser: User := User(1, "Сидоров Иван", "admin", "https://via.placeholder.com/40")

  /** getUserFromToken: no user unless a token cookie with a non-empty value
      exists; otherwise the stub user, whose role is "admin". */
  function UserFromToken(token: Option<Cookie>): (r: Option<User>)
    ensures r.Some? <==> token.Some? && token.value.value != ""
    ensures r.Some? ==> r.value == MockUser && r.value.role == "admin"
  {
    if token.None? || token.value.value == "" then None else Some(MockUser)
  }

  /** What `useAuth` gives its caller: the context, or the error it throws. */
  datatype Hook<+T> = Provided(value: T) | Thrown(message: string)

  /** useAuth fails outside an AuthProvider and hands out the context inside one. */
  function UseAuth<T>(context: Option<T>): (r: Hook<T>)
    ensures r.Provided? <==> context.Some?
    ensures r.Provided? ==> r.value == context.value
    ensures r.Thrown? ==> r.message == "useAuth must be used within an AuthProvider"
  {
    match context
    case Some(c) => Provided(c)
    case None => Thrown("useAuth must be used within an AuthProvider")
  }

  /** isAdmin as a function of the current user. */
  function IsAdminUser(user: Option<User>): (r: bool)
    ensures r <==> user.Some? && user.value.role == "admin"
    ensures user.None? ==> !r
  {
    user.Some? && user.value.role == "admin"
  }

  /** The provider's state: the `user` slot and the browser's "token" cookie. */
  class Session {
    var user: Option<User>
    var tokenCookie: Option<Cookie>

    /** A user is only ever exposed while a non-empty token cookie exists. */
    ghost predicate Valid()
      reads this
    {
      user.Some? ==> tokenCookie.Some? && tokenCookie.value.value != ""
    }

    /** First render: logged out, whatever cookie the browser holds. */
    constructor (stored: Option<Cookie>)
      ensures Valid()
      ensures user == None && tokenCookie == stored
    {
      user := None;
      tokenCookie := stored;
    }

    /** The mount effect: adopt the user decoded from the cookie, if any. */
    method Mount()
      requires Valid()
      modifies this`user
      ensures Valid()
      ensures user == if UserFromToken(tokenCookie).Some? then UserFromToken(tokenCookie) else old(user)
    {
      var stored := UserFromToken(tokenCookie);
      if stored.Some? {
        user := stored;
      }
    }

    method Login(userData: User)
      modifies this
      ensures Valid()
      ensures user == Some(userData)
      ensures tokenCookie == Some(Cookie(MockToken, Some(TokenLifetimeDays)))
    {
      user := Some(userData);
      tokenCookie := Some(Cookie(MockToken, Some(TokenLifetimeDays)));
    }

    /** Clears the user and the cookie and sends the browser home. */
    method Logout() returns (navigateTo: string)
      modifies this
      ensures Valid()
      ensures user == None && tokenCookie == None
      ensures navigateTo == "/"
    {
      user := None;
      tokenCookie := None;
      navigateTo := "/";
    }

    function IsAdmin(): (r: bool)
      reads this
      ensures r <==> user.Some? && user.value.role == "admin"
    {
      IsAdminUser(user)
    }
  }

  /** Logging out twice leaves the same state, and navigates to the same place,
      as logging out once. */
  method LogoutIsIdempotent(s: Session)
    returns (first: string, userAfterFirst: Option<User>, cookieAfterFirst: Option<Cookie>, second: string)
    requires s.Valid()
    modifies s
    ensures first == "/" && second == first
    ensures userAfterFirst == None && cookieAfterFirst == None
    ensures s.Valid() && s.user == userAfterFirst && s.tokenCookie == cookieAfterFirst
  {
    first := s.Logout();
    userAfterFirst, cookieAfterFirst := s.user, s.tokenCookie;
    second := s.Logout();
  }

  /** Start-up with no cookie leaves the visitor logged out; with any
      non-empty cookie the stub admin is signed in. */
  method StartUp(stored: Option<Cookie>) returns (s: Session)
    ensures fresh(s) && s.Valid()
    ensures s.user == UserFromToken(stored)
    ensures s.IsAdmin() <==> stored.Some? && stored.value.value != ""
  {
    s := new Session(stored);
    s.Mount();
  }
}
