/** The service layer of the client (src/services/api.ts): the records the REST
    API exchanges, the two axios interceptors, the browser state they touch (the
    `token` cookie, the `user` entry of localStorage and the current path), and
    the session helpers of `authApi`. Cookies and localStorage are modelled as
    key-to-value maps; HTTP itself is not modelled, an awaited call is given as
    its outcome (`Call`). */
module Api {
  import opened Common

  datatype User = User(id: int, name: string, email: string)

  /** The `{ success, message, data? }` envelope of every REST reply; an absent
      or null `data` is `None`. */
  datatype ApiResponse<T> = ApiResponse(success: bool, message: string, data: Option<T>)

  /** An axios rejection: `error.response?.status` and `error.response?.data?.message`. */
  datatype HttpError = HttpError(status: Option<int>, serverMessage: Option<string>)

  /** What awaiting one API call produced: the reply body or the rejection. */
  datatype Call<T> = Returned(body: ApiResponse<T>) | Threw(error: HttpError)

  datatype LoginResponse = LoginResponse(token: string, user: User)

  datatype Task = Task(id: int, title: string, description: string, completed: bool,
                       userId: int, createdAt: Option<string>, updatedAt: Option<string>)

  datatype Gender = L | P

  /** A student record; the optional text fields and `tahun_masuk` may come back null. */
  datatype Siswa = Siswa(id: int, nis: string, nama: string, jenisKelamin: Gender,
                         tempatLahir: Option<string>, tanggalLahir: Option<string>,
                         alamat: Option<string>, noTelepon: Option<string>,
                         email: Option<string>, kelas: Option<string>,
                         tahunMasuk: Option<int>, createdAt: string, updatedAt: string)

  /** `CreateSiswaRequest` as the student form fills it: every optional field
      is sent, as a string or a year. */
  datatype SiswaForm = SiswaForm(nis: string, nama: string, jenisKelamin: Gender,
                                 tempatLahir: string, tanggalLahir: string, alamat: string,
                                 noTelepon: string, email: string, kelas: string, tahunMasuk: int)

  datatype SiswaListResponse = SiswaListResponse(data: seq<Siswa>, page: int, limit: int,
                                                 total: int, totalPages: int)

  /** The query parameters of `GET /siswa`. */
  datatype SiswaQuery = SiswaQuery(page: int, limit: int, search: string)

  /** `response.success && response.data`. */
  predicate Succeeded<T>(r: ApiResponse<T>)
  {
    r.success && r.data.Some?
  }

  const TOKEN_COOKIE := "token"
  const USER_ENTRY := "user"
  const TOKEN_EXPIRY_DAYS := 7
  const LOGIN_PATH := "/login"
  const UNAUTHORIZED := 401
  const AUTHORIZATION := "Authorization"
  const DEFAULT_PAGE := 1
  const DEFAULT_LIMIT := 10

  datatype Cookie = Cookie(value: string, expiresDays: Option<int>)

  /** A localStorage value: the JSON text of a user, as login writes it, the
      JSON text `null`, or text that is not JSON, which `JSON.parse` rejects
      unless it is empty (then it is falsy and never parsed). */
  datatype Stored = UserJson(user: User) | NullJson | OtherText(text: string)

  /** The outcome of `authApi.getCurrentUser()`: a value, or the exception `JSON.parse` throws. */
  datatype Parsed<T> = Parsed(value: T) | ParseError

  /** The browser state the service layer reads and writes. */
  datatype Storage = Storage(cookies: map<string, Cookie>, local: map<string, Stored>, path: string)

  /** `Cookies.get('token')`. */
  function TokenOf(s: Storage): Option<string>
  {
    if TOKEN_COOKIE in s.cookies then Some(s.cookies[TOKEN_COOKIE].value) else None
  }

  /** `authApi.isAuthenticated()`: `!!Cookies.get('token')`. */
  function IsAuthenticated(s: Storage): (b: bool)
    ensures b <==> TOKEN_COOKIE in s.cookies && s.cookies[TOKEN_COOKIE].value != ""
  {
    match TokenOf(s)
    case None => false
    case Some(t) => t != ""
  }

  /** `authApi.getCurrentUser()`: null when nothing, an empty text or the JSON
      `null` is stored, the user login stored, or a parse exception for text
      that is not JSON. */
  function CurrentUser(s: Storage): (r: Parsed<Option<User>>)
    ensures USER_ENTRY !in s.local ==> r == Parsed(None)
    ensures r == Parsed(None) <==>
              USER_ENTRY !in s.local || s.local[USER_ENTRY] == OtherText("") || s.local[USER_ENTRY] == NullJson
    ensures r.Parsed? && r.value.Some? <==> USER_ENTRY in s.local && s.local[USER_ENTRY].UserJson?
    ensures r.Parsed? && r.value.Some? ==> r.value.value == s.local[USER_ENTRY].user
    ensures r.ParseError? <==> USER_ENTRY in s.local && s.local[USER_ENTRY].OtherText? && s.local[USER_ENTRY].text != ""
  {
    if USER_ENTRY !in s.local then Parsed(None)
    else match s.local[USER_ENTRY]
      case UserJson(u) => Parsed(Some(u))
      case NullJson => Parsed(None)
      case OtherText(t) => if t == "" then Parsed(None) else ParseError
  }

  // ---------------------------------------------------------------------------
  // Request interceptor

  /** The request interceptor on `config.headers`: a bearer header whenever the
      token cookie is non-empty, the headers untouched otherwise. */
  function WithBearer(token: Option<string>, headers: map<string, string>): (h: map<string, string>)
    ensures token.Some? && token.value != "" ==>
              AUTHORIZATION in h && h[AUTHORIZATION] == "Bearer " + token.value
    ensures !(token.Some? && token.value != "") ==> h == headers
    ensures forall k :: k in h && k != AUTHORIZATION ==> k in headers && h[k] == headers[k]
    ensures forall k :: k in headers ==> k in h
  {
    match token
    case Some(t) => if t != "" then headers[AUTHORIZATION := "Bearer " + t] else headers
    case None => headers
  }

  // ---------------------------------------------------------------------------
  // Response interceptor

  /** Whether the response interceptor assigns `window.location.href`, and where to. */
  function RedirectFor(s: Storage, e: HttpError): (r: Option<string>)
    ensures r.Some? <==> e.status == Some(UNAUTHORIZED) && s.path != LOGIN_PATH
    ensures r.Some? ==> r.value == LOGIN_PATH
  {
    if e.status == Some(UNAUTHORIZED) && s.path != LOGIN_PATH then Some(LOGIN_PATH) else None
  }

  /** The browser state after the response interceptor has seen the rejection `e`. */
  function AfterError(s: Storage, e: HttpError): (t: Storage)
    ensures e.status == Some(UNAUTHORIZED) ==>
              t.cookies == s.cookies - {TOKEN_COOKIE} && t.local == s.local - {USER_ENTRY}
    ensures e.status != Some(UNAUTHORIZED) ==> t == s
    ensures t.path == if RedirectFor(s, e).Some? then LOGIN_PATH else s.path
  {
    if e.status == Some(UNAUTHORIZED) then
      Storage(s.cookies - {TOKEN_COOKIE}, s.local - {USER_ENTRY},
              if s.path != LOGIN_PATH then LOGIN_PATH else s.path)
    else s
  }

  /** After a 401 the session is gone and the client is on the login page;
      the redirect is skipped exactly when it is already there. */
  lemma UnauthorizedEndsSession(s: Storage, e: HttpError)
    requires e.status == Some(UNAUTHORIZED)
    ensures !IsAuthenticated(AfterError(s, e))
    ensures CurrentUser(AfterError(s, e)) == Parsed(None)
    ensures AfterError(s, e).path == LOGIN_PATH
    ensures RedirectFor(s, e).None? <==> s.path == LOGIN_PATH
  {
  }

  /** The browser state after one awaited call has passed the interceptors. */
  function AfterCall<T>(s: Storage, c: Call<T>): Storage
  {
    match c
    case Returned(_) => s
    case Threw(e) => AfterError(s, e)
  }

  // ---------------------------------------------------------------------------
  // authApi

  /** `authApi.login`: the interceptors, then the token cookie (7-day expiry)
      and the user entry are written only for a reply with `success` and `data`. */
  function AfterLogin(s: Storage, c: Call<LoginResponse>): (t: Storage)
    ensures c.Returned? && !Succeeded(c.body) ==> t == s
    ensures c.Threw? ==> t == AfterError(s, c.error)
  {
    match c
    case Threw(e) => AfterError(s, e)
    case Returned(r) =>
      if Succeeded(r) then
        s.(cookies := s.cookies[TOKEN_COOKIE := Cookie(r.data.value.token, Some(TOKEN_EXPIRY_DAYS))],
           local := s.local[USER_ENTRY := UserJson(r.data.value.user)])
      else s
  }

  /** A successful login leaves a session that getCurrentUser and isAuthenticated
      read back: the returned user, and authentication iff the token is non-empty. */
  lemma LoginPersistsSession(s: Storage, c: Call<LoginResponse>)
    requires c.Returned? && Succeeded(c.body)
    ensures CurrentUser(AfterLogin(s, c)) == Parsed(Some(c.body.data.value.user))
    ensures IsAuthenticated(AfterLogin(s, c)) <==> c.body.data.value.token != ""
    ensures TokenOf(AfterLogin(s, c)) == Some(c.body.data.value.token)
    ensures AfterLogin(s, c).cookies[TOKEN_COOKIE].expiresDays == Some(TOKEN_EXPIRY_DAYS)
    ensures AfterLogin(s, c).path == s.path
  {
  }

  /** `authApi.logout`: both entries removed, nothing else touched. */
  function AfterLogout(s: Storage): (t: Storage)
    ensures !IsAuthenticated(t) && CurrentUser(t) == Parsed(None)
    ensures t.cookies == s.cookies - {TOKEN_COOKIE} && t.local == s.local - {USER_ENTRY}
    ensures t.path == s.path
  {
    Storage(s.cookies - {TOKEN_COOKIE}, s.local - {USER_ENTRY}, s.path)
  }

  /** `siswaApi.getAll(page = 1, limit = 10, search = '')`: a missing argument takes its default. */
  function GetAllQuery(page: Option<int>, limit: Option<int>, search: Option<string>): SiswaQuery
  {
    SiswaQuery(if page.Some? then page.value else DEFAULT_PAGE,
               if limit.Some? then limit.value else DEFAULT_LIMIT,
               if search.Some? then search.value else "")
  }

  /** Without arguments the first page of ten unfiltered students is asked
      for; given arguments are passed through as they are. */
  lemma GetAllQueryDefaults(page: int, limit: int, search: string)
    ensures GetAllQuery(None, None, None) == SiswaQuery(1, 10, "")
    ensures GetAllQuery(Some(page), Some(limit), Some(search)) == SiswaQuery(page, limit, search)
  {
  }

  /** The browser globals the service layer uses. */
  class Browser {
    var cookies: map<string, Cookie>
    var localStorage: map<string, Stored>
    var path: string

    function State(): Storage
      reads this
    {
      Storage(cookies, localStorage, path)
    }

    constructor (s: Storage)
      ensures State() == s
    {
      cookies, localStorage, path := s.cookies, s.local, s.path;
    }

    /** The response interceptor's error handler: it clears the session on 401,
        redirects unless already on the login page, and re-rejects `e`. */
    method OnResponseError(e: HttpError) returns (rejected: HttpError, redirect: Option<string>)
      modifies this
      ensures rejected == e
      ensures redirect == RedirectFor(old(State()), e)
      ensures State() == AfterError(old(State()), e)
    {
      redirect := None;
      if e.status == Some(UNAUTHORIZED) {
        cookies := cookies - {TOKEN_COOKIE};
        localStorage := localStorage - {USER_ENTRY};
        if path != LOGIN_PATH {
          path := LOGIN_PATH;
          redirect := Some(LOGIN_PATH);
        }
      }
      rejected := e;
    }

    /** One awaited call through the interceptors; the caller sees the same outcome. */
    method Transmit<T>(c: Call<T>) returns (r: Call<T>)
      modifies this
      ensures r == c
      ensures State() == AfterCall(old(State()), c)
    {
      r := c;
      if c.Threw? {
        var _, _ := OnResponseError(c.error);
      }
    }

    /** `authApi.login`. */
    method Login(c: Call<LoginResponse>) returns (r: Call<LoginResponse>)
      modifies this
      ensures r == c
      ensures State() == AfterLogin(old(State()), c)
    {
      r := Transmit(c);
      if c.Returned? && Succeeded(c.body) {
        cookies := cookies[TOKEN_COOKIE := Cookie(c.body.data.value.token, Some(TOKEN_EXPIRY_DAYS))];
        localStorage := localStorage[USER_ENTRY := UserJson(c.body.data.value.user)];
      }
    }

    /** `authApi.logout`. */
    method Logout()
      modifies this
      ensures State() == AfterLogout(old(State()))
    {
      cookies := cookies - {TOKEN_COOKIE};
      localStorage := localStorage - {USER_ENTRY};
    }
  }
}
