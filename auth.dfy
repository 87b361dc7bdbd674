/** Credential sign-in: the `authorize` step that turns the login endpoint's
    answer into a user record, and the `jwt` and `session` callbacks that
    carry that record's claims onto the signed token and into the session. */
module Auth {
  import opened Wrappers

  /** What the sign-in form submits; either field may be missing. */
  datatype Credentials = Credentials(email: Option<string>, password: Option<string>)

  /** The body POSTed to the login endpoint. */
  datatype LoginRequest = LoginRequest(email: string, password: string)

  datatype AvatarInfo = AvatarInfo(url: Option<string>)
  datatype LoginUser = LoginUser(email: string, name: string, avatar: Option<AvatarInfo>)

  /** The `data` object of a login answer: `_id`, `user`, `role` and the two tokens. */
  datatype LoginData = LoginData(id: string, user: Option<LoginUser>, role: string,
                                 accessToken: string, refreshToken: string)

  datatype LoginResponse = LoginResponse(success: bool, data: Option<LoginData>)

  /** The outcome of the login request: it threw (network failure, a body
      that is not JSON), or it produced a decoded body. */
  datatype FetchOutcome = Threw | Responded(body: LoginResponse)

  /** The user record handed to the authentication library. */
  datatype AuthUser = AuthUser(id: string, email: string, name: string, role: string,
                               accessToken: string, refreshToken: string, avatar: string)

  /** JavaScript truthiness of an optional string: present and not empty. */
  predicate Present(s: Option<string>) {
    s.Some? && s.value != ""
  }

  /** The request `authorize` issues, or none when the form lacks an email or a password. */
  function LoginRequestFor(credentials: Option<Credentials>): (req: Option<LoginRequest>)
    ensures req.Some? <==> credentials.Some? && Present(credentials.value.email) && Present(credentials.value.password)
    ensures req.Some? ==> req.value.email == credentials.value.email.value &&
                          req.value.password == credentials.value.password.value
  {
    if credentials.Some? && Present(credentials.value.email) && Present(credentials.value.password) then
      Some(LoginRequest(credentials.value.email.value, credentials.value.password.value))
    else None
  }

  /** `user.avatar?.url || ""`. */
  function AvatarUrl(avatar: Option<AvatarInfo>): (url: string)
    ensures avatar.Some? && avatar.value.url.Some? ==> url == avatar.value.url.value
    ensures avatar.None? || avatar.value.url.None? ==> url == ""
  {
    if avatar.Some? && avatar.value.url.Some? then avatar.value.url.value else ""
  }

  /** The record built from an accepted answer. Reading `user.email` when
      `user` is missing throws, which `authorize` catches and turns into null. */
  function UserFromLogin(outcome: FetchOutcome): (user: Option<AuthUser>)
    ensures user.Some? <==>
              outcome.Responded? && outcome.body.success && outcome.body.data.Some? && outcome.body.data.value.user.Some?
    ensures user.Some? ==>
              var d := outcome.body.data.value;
              user.value == AuthUser(d.id, d.user.value.email, d.user.value.name, d.role,
                                     d.accessToken, d.refreshToken, AvatarUrl(d.user.value.avatar))
  {
    match outcome
    case Threw => None
    case Responded(body) =>
      if body.success && body.data.Some? then
        var d := body.data.value;
        match d.user
        case None => None
        case Some(u) => Some(AuthUser(d.id, u.email, u.name, d.role, d.accessToken, d.refreshToken, AvatarUrl(u.avatar)))
      else None
  }

  /** `authorize`, with the request to the login endpoint given as `login`. */
  function Authorize(credentials: Option<Credentials>, login: LoginRequest -> FetchOutcome): (user: Option<AuthUser>)
    ensures LoginRequestFor(credentials).None? ==> user.None?
    ensures user.Some? <==>
              LoginRequestFor(credentials).Some? &&
              var outcome := login(LoginRequestFor(credentials).value);
              outcome.Responded? && outcome.body.success && outcome.body.data.Some? && outcome.body.data.value.user.Some?
    ensures user.Some? ==>
              var d := login(LoginRequestFor(credentials).value).body.data.value;
              && user.value.id == d.id
              && user.value.email == d.user.value.email
              && user.value.name == d.user.value.name
              && user.value.role == d.role
              && user.value.accessToken == d.accessToken
              && user.value.refreshToken == d.refreshToken
              && user.value.avatar == AvatarUrl(d.user.value.avatar)
  {
    match LoginRequestFor(credentials)
    case None => None
    case Some(req) => UserFromLogin(login(req))
  }

  /** A form without an email or a password is rejected whatever the
      endpoint would have answered: no request is made. */
  lemma MissingCredentialsRejected(credentials: Option<Credentials>, login: LoginRequest -> FetchOutcome)
    requires credentials.None? || !Present(credentials.value.email) || !Present(credentials.value.password)
    ensures LoginRequestFor(credentials).None?
    ensures Authorize(credentials, login).None?
  {
  }

  /** The signed session token. `sub`, `name` and `email` are set by the
      authentication library; the callbacks add the other four claims. */
  class Token {
    var sub: Option<string>
    var name: Option<string>
    var email: Option<string>
    var accessToken: Option<string>
    var refreshToken: Option<string>
    var role: Option<string>
    var avatar: Option<string>

    constructor (sub: Option<string>, name: Option<string>, email: Option<string>)
      ensures this.sub == sub && this.name == name && this.email == email
      ensures accessToken == None && refreshToken == None && role == None && avatar == None
    {
      this.sub := sub;
      this.name := name;
      this.email := email;
      accessToken := None;
      refreshToken := None;
      role := None;
      avatar := None;
    }
  }

  class SessionUser {
    var id: Option<string>
    var name: Option<string>
    var email: Option<string>
    var role: Option<string>
    var avatar: Option<string>

    constructor (name: Option<string>, email: Option<string>)
      ensures this.name == name && this.email == email
      ensures id == None && role == None && avatar == None
    {
      this.name := name;
      this.email := email;
      id := None;
      role := None;
      avatar := None;
    }
  }

  /** The session object the library hands to the `session` callback. */
  class Session {
    var user: SessionUser
    var accessToken: Option<string>
    var refreshToken: Option<string>
    var expires: string

    constructor (user: SessionUser, expires: string)
      ensures this.user == user && this.expires == expires
      ensures accessToken == None && refreshToken == None
    {
      this.user := user;
      this.expires := expires;
      accessToken := None;
      refreshToken := None;
    }
  }

  /** The `jwt` callback: on sign-in (a user is present) copy the user's
      tokens, role and avatar onto the token; otherwise leave it as it is. */
  method Jwt(token: Token, user: Option<AuthUser>) returns (result: Token)
    modifies token
    ensures result == token
    ensures user.None? ==> unchanged(token)
    ensures user.Some? ==>
              && token.accessToken == Some(user.value.accessToken)
              && token.refreshToken == Some(user.value.refreshToken)
              && token.role == Some(user.value.role)
              && token.avatar == Some(user.value.avatar)
    ensures token.sub == old(token.sub) && token.name == old(token.name) && token.email == old(token.email)
  {
    if user.Some? {
      token.accessToken := Some(user.value.accessToken);
      token.refreshToken := Some(user.value.refreshToken);
      token.role := Some(user.value.role);
      token.avatar := Some(user.value.avatar);
    }
    result := token;
  }

  /** The `session` callback: copy the token's subject and claims into the
      session; the user's name and email and the expiry stay as they were. */
  method SessionCallback(session: Session, token: Token) returns (result: Session)
    modifies session, session.user
    ensures result == session && session.user == old(session.user)
    ensures session.user.id == token.sub
    ensures session.accessToken == token.accessToken && session.refreshToken == token.refreshToken
    ensures session.user.role == token.role && session.user.avatar == token.avatar
    ensures session.user.name == old(session.user.name) && session.user.email == old(session.user.email)
    ensures session.expires == old(session.expires)
    ensures unchanged(token)
  {
    session.user.id := token.sub;
    session.accessToken := token.accessToken;
    session.refreshToken := token.refreshToken;
    session.user.role := token.role;
    session.user.avatar := token.avatar;
    result := session;
  }

  /** A credential sign-in as the library runs it: `authorize`, and when it
      yields a user, `jwt` with that user and then `session`. The session
      then holds exactly the tokens, role and avatar `authorize` produced. */
  method SignIn(credentials: Option<Credentials>, login: LoginRequest -> FetchOutcome, token: Token, session: Session)
    returns (user: Option<AuthUser>)
    modifies token, session, session.user
    ensures user == Authorize(credentials, login)
    ensures user.None? ==> unchanged(token) && unchanged(session) && unchanged(session.user)
    ensures user.Some? ==>
              && session.accessToken == Some(user.value.accessToken)
              && session.refreshToken == Some(user.value.refreshToken)
              && session.user.role == Some(user.value.role)
              && session.user.avatar == Some(user.value.avatar)
              && session.user.id == token.sub
    ensures user.Some? ==>
              && token.accessToken == Some(user.value.accessToken)
              && token.refreshToken == Some(user.value.refreshToken)
              && token.role == Some(user.value.role)
              && token.avatar == Some(user.value.avatar)
    ensures token.sub == old(token.sub) && token.name == old(token.name) && token.email == old(token.email)
    ensures session.user == old(session.user)
    ensures session.user.name == old(session.user.name) && session.user.email == old(session.user.email)
    ensures session.expires == old(session.expires)
  {
    user := Authorize(credentials, login);
    if user.Some? {
      var t := Jwt(token, user);
      var s := SessionCallback(session, t);
    }
  }
}
