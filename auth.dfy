/** The session held by the authentication context: the token pair, the
    identity decoded from its access token, the last login error, the
    `"authTokens"` record in local storage, and the last navigation target.
    Network calls are inputs (`Outcome`), `jwtDecode` is the uninterpreted
    `decode` a session is built with, and the 17-minute interval is `Tick`. */
module Auth {
  import opened Wrappers
  import Text

  /** The body of a token response: `{ access, refresh }`. */
  datatype TokenPair = TokenPair(access: string, refresh: string)

  /** The claims object `jwtDecode` returns for an access token. */
  type Claims = map<string, string>

  /** How a request to a token endpoint ended: axios resolved with a response,
      or it threw (a rejected status, a network failure, a bad request), in
      which case `detail` is `error.response?.data?.detail`. */
  datatype Outcome =
    | Responded(status: int, data: TokenPair)
    | Threw(detail: Option<string>, message: string)

  /** The body posted to `token/`. */
  datatype LoginRequest = LoginRequest(username: string, password: string)

  const PlanRoute: string := "/plan"
  const LoginRoute: string := "/authentication/login"
  const StatusOk: int := 200

  /** A snapshot of the context's state; `stored` is the local-storage record. */
  datatype SessionState = SessionState(
    authTokens: Option<TokenPair>,
    user: Option<Claims>,
    userError: string,
    stored: Option<TokenPair>,
    route: string)

  /** The session invariant: `user` is null exactly when `authTokens` is,
      `user` is the decoding of the current access token, and the stored
      record mirrors `authTokens`. */
  ghost predicate Consistent(s: SessionState, decode: string -> Claims) {
    && (s.user.None? <==> s.authTokens.None?)
    && (s.authTokens.Some? ==> s.user == Some(decode(s.authTokens.value.access)))
    && s.stored == s.authTokens
  }

  /** The state the provider starts in: tokens parsed from the stored record,
      the user decoded from them, no error. */
  function Startup(stored: Option<TokenPair>, decode: string -> Claims, route: string): SessionState {
    SessionState(
      stored,
      if stored.Some? then Some(decode(stored.value.access)) else None,
      "",
      stored,
      route)
  }

  /** `error.response?.data?.detail || error.message`: a non-empty detail wins. */
  function ErrorText(detail: Option<string>, message: string): string {
    if detail.Some? && detail.value != "" then detail.value else message
  }

  /** The credentials `loginUser` posts: the username lower-cased, the password
      as typed. */
  function LoginRequestFor(username: string, password: string): LoginRequest {
    LoginRequest(Text.Lower(username), password)
  }

  /** Tokens, user and stored record replaced by a freshly issued pair. */
  function Install(s: SessionState, pair: TokenPair, decode: string -> Claims): SessionState {
    s.(authTokens := Some(pair), user := Some(decode(pair.access)), stored := Some(pair))
  }

  /** `loginUser` once its request has settled. */
  function AfterLogin(s: SessionState, decode: string -> Claims, outcome: Outcome): SessionState {
    match outcome
    case Responded(status, data) =>
      if status == StatusOk then Install(s, data, decode).(route := PlanRoute) else s
    case Threw(detail, message) => s.(userError := ErrorText(detail, message))
  }

  /** `logoutUser`. */
  function AfterLogout(s: SessionState): SessionState {
    s.(user := None, authTokens := None, stored := None, route := LoginRoute)
  }

  /** The refresh token `refreshToken` posts; with no tokens, reading
      `authTokens.refresh` throws before anything is sent. */
  function RefreshRequest(s: SessionState): Option<string> {
    if s.authTokens.Some? then Some(s.authTokens.value.refresh) else None
  }

  /** `refreshToken` once its request has settled. With no tokens the property
      read throws inside the `try`, so the `catch` logs out. */
  function AfterRefresh(s: SessionState, decode: string -> Claims, outcome: Outcome): SessionState {
    if s.authTokens.None? then AfterLogout(s)
    else match outcome
      case Responded(status, data) =>
        if status == StatusOk then Install(s, data, decode) else AfterLogout(s)
      case Threw(_, _) => AfterLogout(s)
  }

  /** One firing of the interval: refresh only while tokens exist. */
  function AfterTick(s: SessionState, decode: string -> Claims, outcome: Outcome): SessionState {
    if s.authTokens.Some? then AfterRefresh(s, decode, outcome) else s
  }

  class Session {
    /** `jwtDecode`. */
    const decode: string -> Claims
    var authTokens: Option<TokenPair>
    var user: Option<Claims>
    var userError: string
    /** `localStorage.getItem("authTokens")`, parsed. */
    var stored: Option<TokenPair>
    /** The location last passed to `navigate`. */
    var route: string

    function State(): SessionState
      reads this
    {
      SessionState(authTokens, user, userError, stored, route)
    }

    ghost predicate Valid()
      reads this
    {
      Consistent(State(), decode)
    }

    /** The provider's initial state, read from local storage. */
    constructor (decode: string -> Claims, storage: Option<TokenPair>, route: string)
      ensures this.decode == decode
      ensures State() == Startup(storage, decode, route)
      ensures Valid()
    {
      this.decode := decode;
      userError := "";
      authTokens := storage;
      user := if storage.Some? then Some(decode(storage.value.access)) else None;
      stored := storage;
      this.route := route;
    }

    method LoginUser(username: string, password: string, outcome: Outcome) returns (sent: LoginRequest)
      requires Valid()
      modifies this
      ensures Valid()
      ensures sent == LoginRequestFor(username, password)
      ensures State() == AfterLogin(old(State()), decode, outcome)
    {
      sent := LoginRequest(Text.Lower(username), password);
      match outcome {
        case Responded(status, data) =>
          if status == StatusOk {
            authTokens := Some(data);
            user := Some(decode(data.access));
            stored := Some(data);
            route := PlanRoute;
          }
        case Threw(detail, message) =>
          userError := ErrorText(detail, message);
      }
    }

    method RefreshToken(outcome: Outcome) returns (sent: Option<string>)
      requires Valid()
      modifies this
      ensures Valid()
      ensures sent == RefreshRequest(old(State()))
      ensures State() == AfterRefresh(old(State()), decode, outcome)
    {
      if authTokens.None? {
        sent := None;
        LogoutUser();
        return;
      }
      sent := Some(authTokens.value.refresh);
      match outcome {
        case Responded(status, data) =>
          if status == StatusOk {
            authTokens := Some(data);
            user := Some(decode(data.access));
            stored := Some(data);
          } else {
            LogoutUser();
          }
        case Threw(_, _) =>
          LogoutUser();
      }
    }

    method LogoutUser()
      requires Valid()
      modifies this
      ensures Valid()
      ensures State() == AfterLogout(old(State()))
    {
      user := None;
      authTokens := None;
      stored := None;
      route := LoginRoute;
    }

    /** The interval callback: `if (authTokens) refreshToken()`. */
    method Tick(outcome: Outcome) returns (sent: Option<string>)
      requires Valid()
      modifies this
      ensures Valid()
      ensures State() == AfterTick(old(State()), decode, outcome)
      ensures old(authTokens).None? ==> sent.None?
      ensures old(authTokens).Some? ==> sent == Some(old(authTokens).value.refresh)
    {
      sent := None;
      if authTokens.Some? {
        sent := RefreshToken(outcome);
      }
    }

    /** `setUserError`, handed to consumers of the context. */
    method SetUserError(e: string)
      requires Valid()
      modifies this`userError
      ensures Valid()
      ensures State() == old(State()).(userError := e)
    {
      userError := e;
    }
  }

  /** The navigation bar's and home page's choice of link: the planning view
      when signed in, the login view otherwise. */
  function PlanLink(s: SessionState): string {
    if s.user.Some? then PlanRoute else "/login"
  }

  /** The navigation bar's button label. */
  function AuthButtonLabel(s: SessionState): string {
    if s.user.None? then "Login" else "Logout"
  }

  // ----- Properties of the session operations -----

  lemma StartupConsistent(stored: Option<TokenPair>, decode: string -> Claims, route: string)
    ensures Consistent(Startup(stored, decode, route), decode)
    ensures Startup(stored, decode, route).authTokens == stored
  {
  }

  /** Every operation keeps the session invariant. */
  lemma OperationsKeepConsistent(s: SessionState, decode: string -> Claims, outcome: Outcome)
    requires Consistent(s, decode)
    ensures Consistent(AfterLogin(s, decode, outcome), decode)
    ensures Consistent(AfterRefresh(s, decode, outcome), decode)
    ensures Consistent(AfterLogout(s), decode)
    ensures Consistent(AfterTick(s, decode, outcome), decode)
  {
  }

  /** A login answered with 200 installs the returned pair, decodes the user
      from its access token, persists the pair and navigates to "/plan". */
  lemma LoginSuccess(s: SessionState, decode: string -> Claims, data: TokenPair)
    ensures var r := AfterLogin(s, decode, Responded(StatusOk, data));
            && r.authTokens == Some(data)
            && r.user == Some(decode(data.access))
            && r.stored == Some(data)
            && r.route == PlanRoute
            && r.userError == s.userError
  {
  }

  /** A login that throws leaves the session, the record and the route alone
      and reports the response's detail, or else the error message. */
  lemma LoginThrowKeepsSession(s: SessionState, decode: string -> Claims, detail: Option<string>, message: string)
    ensures var r := AfterLogin(s, decode, Threw(detail, message));
            && r.authTokens == s.authTokens && r.user == s.user
            && r.stored == s.stored && r.route == s.route
            && r.userError == (if detail.Some? && detail.value != "" then detail.value else message)
  {
  }

  /** A login that resolves with a status other than 200 changes nothing at
      all, not even the error. */
  lemma LoginOtherStatusIsNoOp(s: SessionState, decode: string -> Claims, status: int, data: TokenPair)
    requires status != StatusOk
    ensures AfterLogin(s, decode, Responded(status, data)) == s
  {
  }

  /** The username goes out lower-cased and the password untouched; logins
      that differ only in the case of the username send the same request. */
  lemma LoginRequestNormalises(u1: string, u2: string, password: string)
    requires Text.Lower(u1) == Text.Lower(u2)
    ensures LoginRequestFor(u1, password) == LoginRequestFor(u2, password)
    ensures LoginRequestFor(u1, password).password == password
    ensures LoginRequestFor(u1, password) == LoginRequestFor(Text.Lower(u1), password)
  {
    Text.LowerIdempotent(u1);
  }

  /** A refresh sends the current refresh token; answered with 200 it replaces
      tokens, user and record but does not navigate. */
  lemma RefreshSuccess(s: SessionState, decode: string -> Claims, data: TokenPair)
    requires s.authTokens.Some?
    ensures RefreshRequest(s) == Some(s.authTokens.value.refresh)
    ensures var r := AfterRefresh(s, decode, Responded(StatusOk, data));
            && r.authTokens == Some(data)
            && r.user == Some(decode(data.access))
            && r.stored == Some(data)
            && r.route == s.route && r.userError == s.userError
  {
  }

  /** A refresh that is not answered with 200 (or that finds no tokens) has
      exactly the effect of `logoutUser`. */
  lemma RefreshFailureIsLogout(s: SessionState, decode: string -> Claims, outcome: Outcome)
    requires s.authTokens.None? || outcome.Threw? || outcome.status != StatusOk
    ensures AfterRefresh(s, decode, outcome) == AfterLogout(s)
  {
  }

  /** Logout empties the session, removes the record and goes to the login
      view; doing it twice is doing it once. */
  lemma LogoutIdempotent(s: SessionState)
    ensures var r := AfterLogout(s);
            && r.user.None? && r.authTokens.None? && r.stored.None?
            && r.route == LoginRoute && r.userError == s.userError
    ensures AfterLogout(AfterLogout(s)) == AfterLogout(s)
  {
  }

  /** With no tokens the interval does nothing and sends nothing. */
  lemma TickWithoutSessionIsNoOp(s: SessionState, decode: string -> Claims, outcome: Outcome)
    requires s.authTokens.None?
    ensures AfterTick(s, decode, outcome) == s
  {
  }

  /** The stored record is a checkpoint: restarting the provider from it gives
      back the same tokens and the same user as the live session. */
  lemma RestartResumesSession(s: SessionState, decode: string -> Claims, route: string)
    requires Consistent(s, decode)
    ensures Startup(s.stored, decode, route).authTokens == s.authTokens
    ensures Startup(s.stored, decode, route).user == s.user
  {
  }

  /** The signed-in links follow the user: "/plan" and "Logout" exactly when
      a session is present. */
  lemma LinksFollowSession(s: SessionState, decode: string -> Claims)
    requires Consistent(s, decode)
    ensures PlanLink(s) == PlanRoute <==> s.authTokens.Some?
    ensures AuthButtonLabel(s) == "Logout" <==> s.authTokens.Some?
  {
  }
}
