/** The authenticator of `app.py`: cookie login, credential login, start-up initialisation and
    the before-request guard, over the client's `logged_in` and `csrf_token` fields and its
    cookie jar. Every network exchange is an input `Reply`; HTML parsing, JSON parsing and the
    codecs are the function fields of `Libraries`. */
module Auth {
  import opened Wrappers
  import opened Text
  import opened Decoding
  import opened Cookies

  /** The client's state: `logged_in`, `csrf_token` and the cookies installed in its jar. */
  datatype Session = Session(loggedIn: bool, csrfToken: Option<string>, jar: CookieMap)

  /** The state of a freshly constructed client. */
  const InitialSession := Session(false, None, map[])

  /** The `<input name="_token">` of a page: absent, or present with its `value` attribute
      (which may itself be missing). */
  datatype TokenInput = NoTokenInput | TokenInput(value: Option<string>)

  /** What the HTML parser finds in a page: the token input and whether there is a link whose
      `href` contains `logout`. */
  datatype Marks = Marks(token: TokenInput, logoutLink: bool)

  /** One HTTP exchange: the request raised, or the final response with its status code, final
      URL (after redirects), `Content-Encoding` header, raw body and the transport's text. */
  datatype Reply =
    | Raised
    | Answered(status: int, url: string, contentEncoding: Option<string>, content: Bytes, text: string)

  /** The login form posted by `direct_login`; a `None` token is a field the form leaves out. */
  datatype Form = Form(token: Option<string>, email: string, password: string, remember: string)

  /** The foreign code the client calls: `json.loads`, the HTML parser and the codecs. */
  datatype Libraries = Libraries(parse: string -> Option<Json>, scan: string -> Marks, codecs: Codecs)

  /** What a cookie login observes: `COOKIES_JSON`, the cookie file and the reply to the GET of
      the received-SMS page. */
  datatype CookieInputs = CookieInputs(env: Option<string>, file: FileRead, page: Reply)

  /** What a credential login observes: the credentials, the reply to the GET of the login page,
      the server's answer to each possible POST, and the reply to the GET of the received-SMS
      page that follows. */
  datatype CredentialInputs = CredentialInputs(
    email: string, password: string, loginPage: Reply, post: Form -> Reply, portalPage: Reply)

  /** The two inputs of one run of `initialize_client`. */
  datatype Request = Request(cookie: CookieInputs, credential: CredentialInputs)

  /** A login attempt's return value and the state it leaves behind. */
  datatype Attempt = Attempt(ok: bool, after: Session)

  /** The jar after it is emptied and every loaded cookie is set in it: setting a cookie to
      `None` removes it instead. */
  function Installed(cookies: CookieMap): CookieMap {
    map name | name in cookies && cookies[name] != Null :: cookies[name]
  }

  /** What the parser finds in the decompressed text of a cookie-login page. */
  function CookiePageMarks(page: Reply, libs: Libraries): Marks
    requires page.Answered?
  {
    libs.scan(DecodeBody(page.contentEncoding, page.content, page.text, libs.codecs))
  }

  /** The token input of a page read from its plain text, when the page answered 200. */
  function TokenOn(page: Reply, libs: Libraries): TokenInput {
    if page.Answered? && page.status == 200 then libs.scan(page.text).token else NoTokenInput
  }

  /** `login_with_cookies`: with no cookies (absent or empty) nothing changes; otherwise the
      jar is replaced, and the login succeeds exactly when the page answers 200 and shows a
      token input or a logout link. */
  function CookieLoginStep(s: Session, loaded: Option<CookieMap>, page: Reply, libs: Libraries): (r: Attempt)
    ensures loaded == None || loaded == Some(map[]) ==> r == Attempt(false, s)
    ensures r.ok <==>
              && loaded.Some? && loaded.value != map[] && page.Answered? && page.status == 200
              && (CookiePageMarks(page, libs).token.TokenInput? || CookiePageMarks(page, libs).logoutLink)
    ensures r.after.loggedIn == (s.loggedIn || r.ok)
    ensures r.after.csrfToken ==
              if r.ok && page.Answered? && CookiePageMarks(page, libs).token.TokenInput?
              then CookiePageMarks(page, libs).token.value
              else s.csrfToken
    ensures loaded.Some? && loaded.value != map[] ==> r.after.jar == Installed(loaded.value)
  {
    if loaded.None? || loaded.value == map[] then Attempt(false, s)
    else
      var installed := s.(jar := Installed(loaded.value));
      if page.Raised? || page.status != 200 then Attempt(false, installed)
      else
        var marks := CookiePageMarks(page, libs);
        if marks.token.NoTokenInput? && !marks.logoutLink then Attempt(false, installed)
        else
          var token := if marks.token.TokenInput? then marks.token.value else s.csrfToken;
          Attempt(true, installed.(loggedIn := true, csrfToken := token))
  }

  /** The form `direct_login` posts: present exactly when the login page answered 200 with a
      token input, and then carrying that input's value and the given credentials. */
  function LoginForm(loginPage: Reply, email: string, password: string, libs: Libraries): (form: Option<Form>)
    ensures form.Some? <==> TokenOn(loginPage, libs).TokenInput?
    ensures form.Some? ==>
              && form.value.token == TokenOn(loginPage, libs).value
              && form.value.email == email && form.value.password == password
              && form.value.remember == "on"
  {
    match TokenOn(loginPage, libs)
    case NoTokenInput => None
    case TokenInput(value) => Some(Form(value, email, password, "on"))
  }

  /** The POST landed in the member area: status 200 and a final URL that mentions
      `dashboard` or `portal`. */
  predicate Landed(reply: Reply) {
    reply.Answered? && reply.status == 200 && (Contains(reply.url, "dashboard") || Contains(reply.url, "portal"))
  }

  /** `direct_login`: `logged_in` is set as soon as the POST lands, but the login succeeds only
      if the received-SMS page then answers 200 with a token input, whose value becomes the new
      `csrf_token`. */
  function DirectLoginStep(s: Session, c: CredentialInputs, libs: Libraries): (r: Attempt)
    ensures var form := LoginForm(c.loginPage, c.email, c.password, libs);
            r.after.loggedIn == (s.loggedIn || (form.Some? && Landed(c.post(form.value))))
    ensures var form := LoginForm(c.loginPage, c.email, c.password, libs);
            r.ok <==> form.Some? && Landed(c.post(form.value)) && TokenOn(c.portalPage, libs).TokenInput?
    ensures r.ok ==> r.after.loggedIn
    ensures r.after.csrfToken == if r.ok then TokenOn(c.portalPage, libs).value else s.csrfToken
    ensures r.after.jar == s.jar
  {
    match LoginForm(c.loginPage, c.email, c.password, libs)
    case None => Attempt(false, s)
    case Some(form) =>
      if !Landed(c.post(form)) then Attempt(false, s)
      else
        var entered := s.(loggedIn := true);
        match TokenOn(c.portalPage, libs)
        case NoTokenInput => Attempt(false, entered)
        case TokenInput(value) => Attempt(true, entered.(csrfToken := value))
  }

  /** `initialize_client`: a cookie login, then a credential login from the state the cookie
      login left, only if the cookie login failed. */
  function InitializeStep(s: Session, req: Request, libs: Libraries): (r: Attempt)
    ensures s.loggedIn ==> r.after.loggedIn
    ensures r.ok ==> r.after.loggedIn
    ensures var first := CookieLoginStep(s, Loaded(req.cookie.env, req.cookie.file, libs.parse), req.cookie.page, libs);
            && (first.ok ==> r == first)
            && (!first.ok ==> r == DirectLoginStep(first.after, req.credential, libs))
            && (r.ok <==> first.ok || DirectLoginStep(first.after, req.credential, libs).ok)
  {
    var first := CookieLoginStep(s, Loaded(req.cookie.env, req.cookie.file, libs.parse), req.cookie.page, libs);
    if first.ok then first else DirectLoginStep(first.after, req.credential, libs)
  }

  /** `before_request`: re-run `initialize_client` only while not logged in. */
  function BeforeRequestStep(s: Session, req: Request, libs: Libraries): (r: Session)
    ensures s.loggedIn ==> r == s
    ensures !s.loggedIn ==> r == InitializeStep(s, req, libs).after
  {
    if s.loggedIn then s else InitializeStep(s, req, libs).after
  }

  /** The state after the guard has run for each request in turn. */
  function Serve(s: Session, requests: seq<Request>, libs: Libraries): Session
    decreases |requests|
  {
    if requests == [] then s else Serve(BeforeRequestStep(s, requests[0], libs), requests[1..], libs)
  }

  /** A successful cookie login makes the credential inputs irrelevant: the credential login is
      never attempted. */
  lemma CredentialsOnlyAfterCookieFailure(s: Session, cookie: CookieInputs, c1: CredentialInputs, c2: CredentialInputs, libs: Libraries)
    requires CookieLoginStep(s, Loaded(cookie.env, cookie.file, libs.parse), cookie.page, libs).ok
    ensures InitializeStep(s, Request(cookie, c1), libs) == InitializeStep(s, Request(cookie, c2), libs)
    ensures InitializeStep(s, Request(cookie, c1), libs)
            == CookieLoginStep(s, Loaded(cookie.env, cookie.file, libs.parse), cookie.page, libs)
  {
  }

  /** `direct_login` can report failure with `logged_in` already set: the POST lands in the
      member area, but fetching the received-SMS page raises or shows no token input. */
  lemma LoggedInWithoutSuccess(s: Session, c: CredentialInputs, libs: Libraries)
    requires LoginForm(c.loginPage, c.email, c.password, libs).Some?
    requires Landed(c.post(LoginForm(c.loginPage, c.email, c.password, libs).value))
    requires TokenOn(c.portalPage, libs).NoTokenInput?
    ensures !DirectLoginStep(s, c, libs).ok && DirectLoginStep(s, c, libs).after.loggedIn
    ensures DirectLoginStep(s, c, libs).after.csrfToken == s.csrfToken
  {
  }

  /** Running the guard over two batches of requests is running it over their concatenation. */
  lemma {:induction false} ServeConcat(s: Session, a: seq<Request>, b: seq<Request>, libs: Libraries)
    ensures Serve(s, a + b, libs) == Serve(Serve(s, a, libs), b, libs)
    decreases |a|
  {
    if a != [] {
      assert (a + b)[1..] == a[1..] + b;
      ServeConcat(BeforeRequestStep(s, a[0], libs), a[1..], b, libs);
    } else {
      assert a + b == b;
    }
  }

  /** Once logged in, the guard changes nothing, however many requests follow. */
  lemma {:induction false} LoggedInIsFinal(s: Session, requests: seq<Request>, libs: Libraries)
    requires s.loggedIn
    ensures Serve(s, requests, libs) == s
    decreases |requests|
  {
    if requests != [] {
      LoggedInIsFinal(s, requests[1..], libs);
    }
  }

  /** `logged_in` is never reset: if it holds after the first `k` requests, the state after all
      of them is the state after those `k`. */
  lemma LoggedInNeverCleared(s: Session, requests: seq<Request>, k: nat, libs: Libraries)
    requires k <= |requests|
    requires Serve(s, requests[..k], libs).loggedIn
    ensures Serve(s, requests, libs) == Serve(s, requests[..k], libs)
  {
    assert requests == requests[..k] + requests[k..];
    ServeConcat(s, requests[..k], requests[k..], libs);
    LoggedInIsFinal(Serve(s, requests[..k], libs), requests[k..], libs);
  }

  /** The process-wide client of `app.py`. */
  class Client {
    var loggedIn: bool
    var csrfToken: Option<string>
    var jar: CookieMap

    /** The fields as one value. */
    function State(): Session
      reads this
    {
      Session(loggedIn, csrfToken, jar)
    }

    constructor ()
      ensures State() == InitialSession
    {
      loggedIn := false;
      csrfToken := None;
      jar := map[];
    }

    /** Empty the jar, then set every loaded cookie in it. */
    method InstallCookies(cookies: CookieMap)
      modifies this`jar
      ensures jar == Installed(cookies)
    {
      jar := map[];
      var pending := cookies.Keys;
      while pending != {}
        invariant pending <= cookies.Keys
        invariant jar == map name | name in cookies.Keys - pending && cookies[name] != Null :: cookies[name]
        decreases pending
      {
        var name :| name in pending;
        if cookies[name] != Null {
          jar := jar[name := cookies[name]];
        }
        pending := pending - {name};
      }
    }

    method LoginWithCookies(cookie: CookieInputs, libs: Libraries) returns (ok: bool)
      modifies this
      ensures var r := CookieLoginStep(old(State()), Loaded(cookie.env, cookie.file, libs.parse), cookie.page, libs);
              ok == r.ok && State() == r.after
    {
      var cookies := LoadCookies(cookie.env, cookie.file, libs.parse);
      if cookies.None? || cookies.value == map[] {
        return false;
      }
      InstallCookies(cookies.value);
      var response := cookie.page;
      if response.Raised? {
        return false;
      }
      if response.status == 200 {
        var html := DecodeBody(response.contentEncoding, response.content, response.text, libs.codecs);
        var marks := libs.scan(html);
        if marks.token.TokenInput? || marks.logoutLink {
          if marks.token.TokenInput? {
            csrfToken := marks.token.value;
          }
          loggedIn := true;
          return true;
        } else {
          return false;
        }
      }
      return false;
    }

    method DirectLogin(c: CredentialInputs, libs: Libraries) returns (ok: bool)
      modifies this`loggedIn, this`csrfToken
      ensures var r := DirectLoginStep(old(State()), c, libs);
              ok == r.ok && State() == r.after
    {
      var response := c.loginPage;
      if response.Raised? || response.status != 200 {
        return false;
      }
      var csrfInput := libs.scan(response.text).token;
      if csrfInput.NoTokenInput? {
        return false;
      }
      var payload := Form(csrfInput.value, c.email, c.password, "on");
      var loginResponse := c.post(payload);
      if loginResponse.Answered? && loginResponse.status == 200 {
        if Contains(loginResponse.url, "dashboard") || Contains(loginResponse.url, "portal") {
          loggedIn := true;
          var dashboardResponse := c.portalPage;
          if dashboardResponse.Raised? {
            return false;
          }
          if dashboardResponse.status == 200 {
            var newCsrf := libs.scan(dashboardResponse.text).token;
            if newCsrf.TokenInput? {
              csrfToken := newCsrf.value;
              return true;
            }
          }
        }
      }
      return false;
    }

    method Initialize(req: Request, libs: Libraries) returns (ok: bool)
      modifies this
      ensures var r := InitializeStep(old(State()), req, libs);
              ok == r.ok && State() == r.after
    {
      ok := LoginWithCookies(req.cookie, libs);
      if ok {
        return;
      }
      ok := DirectLogin(req.credential, libs);
    }

    method BeforeRequest(req: Request, libs: Libraries)
      modifies this
      ensures State() == BeforeRequestStep(old(State()), req, libs)
    {
      if !loggedIn {
        var ok := Initialize(req, libs);
      }
    }
  }
}
