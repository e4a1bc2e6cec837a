/** The zustand authentication store of src/store/auth-store.ts. Every action
    overwrites some of the three fields; `login` and `logout` also go through
    `authApi`, so they change the browser state as well. */
module AuthStore {
  import opened Common
  import opened Api

  class Store {
    var user: Option<User>
    var token: Option<string>
    var isAuthenticated: bool

    /** The store as created: the user from localStorage, the flag from the
        token cookie, and no token (the cookie is the token's only home). */
    constructor (b: Browser)
      requires CurrentUser(b.State()).Parsed?
      ensures user == CurrentUser(b.State()).value
      ensures token == None
      ensures isAuthenticated == IsAuthenticated(b.State())
    {
      user := CurrentUser(b.State()).value;
      token := None;
      isAuthenticated := IsAuthenticated(b.State());
    }

    /** `login`: only a reply with `success` and `data` installs the session
        and yields true; a refusal or an exception yields false and leaves the
        store as it was. */
    method Login(b: Browser, c: Call<LoginResponse>) returns (ok: bool)
      modifies this, b
      ensures ok <==> c.Returned? && Succeeded(c.body)
      ensures ok ==> user == Some(c.body.data.value.user) && token == Some(c.body.data.value.token)
                     && isAuthenticated
      ensures !ok ==> user == old(user) && token == old(token) && isAuthenticated == old(isAuthenticated)
      ensures b.State() == AfterLogin(old(b.State()), c)
    {
      var r := b.Login(c);
      ok := false;
      if r.Returned? && Succeeded(r.body) {
        user, token, isAuthenticated := Some(r.body.data.value.user), Some(r.body.data.value.token), true;
        ok := true;
      }
    }

    /** `logout`: the storage entries and all three fields are cleared. */
    method Logout(b: Browser)
      modifies this, b
      ensures user == None && token == None && !isAuthenticated
      ensures b.State() == AfterLogout(old(b.State()))
    {
      b.Logout();
      user, token, isAuthenticated := None, None, false;
    }

    method SetUser(u: User)
      modifies this
      ensures user == Some(u)
      ensures token == old(token) && isAuthenticated == old(isAuthenticated)
    {
      user := Some(u);
    }

    method SetToken(t: string)
      modifies this
      ensures token == Some(t)
      ensures user == old(user) && isAuthenticated == old(isAuthenticated)
    {
      token := Some(t);
    }

    method SetIsAuthenticated(a: bool)
      modifies this
      ensures isAuthenticated == a
      ensures user == old(user) && token == old(token)
    {
      isAuthenticated := a;
    }
  }
}
