/** The React authentication context of src/context/AuthContext.tsx: the
    provider's `user` and `isLoading` state, the session restore on mount, the
    message fallbacks of `login` and `register`, `logout`, and the `useAuth`
    guard. */
module AuthContext {
  import opened Common
  import opened Api

  /** The `{ success, message }` value `login` and `register` resolve to. */
  datatype AuthResult = AuthResult(success: bool, message: string)

  const LOGIN_FAILED := "Login failed"
  const LOGIN_ERROR := "An error occurred during login"
  const REGISTER_FAILED := "Registration failed"
  const REGISTER_ERROR := "An error occurred during registration"
  const OUTSIDE_PROVIDER := "useAuth must be used within an AuthProvider"

  /** What `login` resolves to for the outcome of `authApi.login`. */
  function LoginResult(c: Call<LoginResponse>): (r: AuthResult)
    ensures r.success <==> c.Returned? && Succeeded(c.body)
    ensures r.success ==> r.message == c.body.message
    ensures c.Returned? && !r.success ==> r.message == OrElse(c.body.message, LOGIN_FAILED)
    ensures c.Threw? ==> r.message == OptOrElse(c.error.serverMessage, LOGIN_ERROR)
  {
    match c
    case Returned(resp) =>
      if Succeeded(resp) then AuthResult(true, resp.message)
      else AuthResult(false, OrElse(resp.message, LOGIN_FAILED))
    case Threw(e) => AuthResult(false, OptOrElse(e.serverMessage, LOGIN_ERROR))
  }

  /** What `register` resolves to; unlike login, `success` alone suffices. */
  function RegisterResult(c: Call<User>): (r: AuthResult)
    ensures r.success <==> c.Returned? && c.body.success
    ensures r.success ==> r.message == c.body.message
    ensures c.Returned? && !r.success ==> r.message == OrElse(c.body.message, REGISTER_FAILED)
    ensures c.Threw? ==> r.message == OptOrElse(c.error.serverMessage, REGISTER_ERROR)
  {
    match c
    case Returned(resp) =>
      if resp.success then AuthResult(true, resp.message)
      else AuthResult(false, OrElse(resp.message, REGISTER_FAILED))
    case Threw(e) => AuthResult(false, OptOrElse(e.serverMessage, REGISTER_ERROR))
  }

  /** A failed login or registration always carries a message to show: the
      server's when it sent a non-empty one, the fixed fallback otherwise. */
  lemma {:induction false} FailuresExplainThemselves(l: Call<LoginResponse>, g: Call<User>)
    ensures !LoginResult(l).success ==> LoginResult(l).message != ""
    ensures !RegisterResult(g).success ==> RegisterResult(g).message != ""
    ensures l.Threw? && l.error.serverMessage in {None, Some("")} ==> LoginResult(l).message == LOGIN_ERROR
    ensures g.Threw? && g.error.serverMessage in {None, Some("")} ==> RegisterResult(g).message == REGISTER_ERROR
  {
    match l
    case Returned(resp) =>
    case Threw(e) => OptOrElseFallback(e.serverMessage, LOGIN_ERROR);
    match g
    case Returned(resp) =>
    case Threw(e) => OptOrElseFallback(e.serverMessage, REGISTER_ERROR);
  }

  /** The user the mount effect restores from a storage state whose user entry
      parses: one only when a stored user and a non-empty token are both present. */
  function RestoredUser(s: Storage): (u: Option<User>)
    ensures u.Some? <==> USER_ENTRY in s.local && s.local[USER_ENTRY].UserJson? && IsAuthenticated(s)
    ensures u.Some? ==> u.value == s.local[USER_ENTRY].user
  {
    match CurrentUser(s)
    case Parsed(Some(cu)) => if IsAuthenticated(s) then Some(cu) else None
    case _ => None
  }

  /** `useAuth()`: the context value, or the error it throws outside a provider. */
  datatype Hook<C> = Context(value: C) | Thrown(message: string)

  function UseAuth<C>(ctx: Option<C>): (r: Hook<C>)
    ensures r.Thrown? <==> ctx.None?
    ensures r.Thrown? ==> r.message == OUTSIDE_PROVIDER
    ensures ctx.Some? ==> r == Context(ctx.value)
  {
    match ctx
    case None => Thrown(OUTSIDE_PROVIDER)
    case Some(c) => Context(c)
  }

  class AuthProvider {
    var user: Option<User>
    var isLoading: bool

    constructor ()
      ensures user == None && isLoading
    {
      user, isLoading := None, true;
    }

    /** The `isAuthenticated` the provider publishes: `!!user`. */
    function IsAuthenticated(): bool
      reads this
    {
      user.Some?
    }

    /** The mount effect: restore the session when both a stored user and a
        token exist; if reading the stored user throws, both entries are
        removed; loading ends in every case. */
    method Init(b: Browser)
      modifies this, b
      ensures !isLoading
      ensures CurrentUser(old(b.State())).ParseError? ==>
                user == old(user) && b.State() == AfterLogout(old(b.State()))
      ensures CurrentUser(old(b.State())).Parsed? ==>
                b.State() == old(b.State())
                && user == (if RestoredUser(old(b.State())).Some? then RestoredUser(old(b.State())) else old(user))
      ensures IsAuthenticated() <==> old(IsAuthenticated()) || RestoredUser(old(b.State())).Some?
    {
      var current := CurrentUser(b.State());
      match current {
        case ParseError =>
          b.Logout();
        case Parsed(cu) =>
          if cu.Some? && Api.IsAuthenticated(b.State()) {
            user := cu;
          }
      }
      isLoading := false;
    }

    /** `login`: the user is set only for a reply with `success` and `data`. */
    method Login(b: Browser, c: Call<LoginResponse>) returns (r: AuthResult)
      modifies this, b
      ensures r == LoginResult(c)
      ensures user == if r.success then Some(c.body.data.value.user) else old(user)
      ensures IsAuthenticated() <==> r.success || old(IsAuthenticated())
      ensures isLoading == old(isLoading)
      ensures b.State() == AfterLogin(old(b.State()), c)
    {
      var outcome := b.Login(c);
      if outcome.Returned? && Succeeded(outcome.body) {
        user := Some(outcome.body.data.value.user);
      }
      r := LoginResult(outcome);
    }

    /** `register`: never touches the provider's state. */
    method Register(b: Browser, c: Call<User>) returns (r: AuthResult)
      modifies b
      ensures r == RegisterResult(c)
      ensures user == old(user) && isLoading == old(isLoading)
      ensures IsAuthenticated() == old(IsAuthenticated())
      ensures b.State() == AfterCall(old(b.State()), c)
    {
      var outcome := b.Transmit(c);
      r := RegisterResult(outcome);
    }

    /** `logout`: storage cleared and the user gone, so no longer authenticated. */
    method Logout(b: Browser)
      modifies this, b
      ensures user == None && !IsAuthenticated()
      ensures isLoading == old(isLoading)
      ensures b.State() == AfterLogout(old(b.State()))
    {
      b.Logout();
      user := None;
    }
  }
}
