/** The session lifecycle of the console's `AuthProvider`
    (src/context/AuthContext.tsx): the mount-time verify / refresh / re-verify
    protocol, the auth-failure policy, `login`, `logout` and the loading gate.

    Browser state is modelled by fields: the two `localStorage` keys
    (`access_token`, `refresh_token`) as optional strings, the current
    `window.location.pathname`, and the last value assigned to
    `window.location.href` (a navigation target). Every HTTP request the
    provider issues is appended to a request log; the outcome of each request
    is a parameter, so every branch of the protocol can be stated. */
module AuthContext {
  import opened Wrappers

  const LoginRoute := "/login"
  const DashboardRoute := "/dashboard"

  /** Paths on which an already valid session is sent away to the dashboard,
      and on which an invalid one keeps its tokens. */
  const PublicRoutes: seq<string> := [LoginRoute]

  predicate IsPublic(path: string) {
    path in PublicRoutes
  }

  /** JavaScript truthiness of a `localStorage.getItem` result:
      both `null` and the empty string are falsy. */
  predicate Present(token: Option<string>) {
    token.Some? && token.value != ""
  }

  const BearerPrefix := "Bearer "

  /** The `Authorization` header of the first `/test-token` call: the bearer
      scheme of section 2.1 of RFC 6750 when a token is stored, and an empty
      header otherwise. */
  function AuthorizationHeader(token: Option<string>): (h: string)
  {
    if Present(token) then BearerPrefix + token.value else ""
  }

  /** The credential carried by an `Authorization` header in the bearer scheme. */
  function BearerCredential(h: string): (r: Option<string>)
    ensures r.Some? ==> BearerPrefix + r.value == h
  {
    if |h| >= |BearerPrefix| && h[..|BearerPrefix|] == BearerPrefix
    then Some(h[|BearerPrefix|..])
    else None
  }

  /** The header carries exactly the stored token when there is one, and no
      credential at all when there is none. */
  lemma {:induction false} AuthorizationHeaderRoundTrip(token: Option<string>)
    ensures BearerCredential(AuthorizationHeader(token)) == if Present(token) then token else None
    ensures AuthorizationHeader(token) == "" <==> !Present(token)
  {
    if Present(token) {
      var h := AuthorizationHeader(token);
      assert h[..|BearerPrefix|] == BearerPrefix;
      assert h[|BearerPrefix|..] == token.value;
    }
  }

  /** A request the provider sends to the backend. */
  datatype Request =
    | TestToken(authorization: string)          // GET /test-token
    | RefreshToken(refreshToken: string)        // POST /refresh-token
    | AdminLogin(phone: string, password: string) // POST /admin-login

  /** Outcome of a GET /test-token call. */
  datatype VerifyOutcome = Accepted | Unauthorized

  /** Outcome of a POST /refresh-token call. */
  datatype RefreshOutcome = Refreshed(accessToken: string, refreshToken: string) | RefreshFailed

  /** Outcome of a POST /admin-login call: a resolved response or a rejected promise. */
  datatype LoginResponse = Resolved(status: int, accessToken: string, refreshToken: string) | RequestFailed

  /** What `login` throws. */
  datatype LoginError = InvalidCredentials | RequestError

  /** How a `login` call ends: it returns, or it throws. */
  datatype LoginResult = LoggedIn | Threw(error: LoginError)

  /** Everything the provider reads or writes. */
  datatype Session = Session(
    accessToken: Option<string>,
    refreshToken: Option<string>,
    loading: bool,
    isAuthenticated: bool,
    pathname: string,
    location: Option<string>,
    requests: seq<Request>)

  /** The state on page load: `loading` is true, `isAuthenticated` false,
      nothing navigated and nothing sent; the tokens are whatever storage holds. */
  function Loaded(pathname: string, access: Option<string>, refresh: Option<string>): Session {
    Session(access, refresh, true, false, pathname, None, [])
  }

  /** Children are rendered only once `loading` is false; before that the
      spinner is shown. */
  predicate RendersChildren(s: Session) {
    !s.loading
  }

  // ---------------------------------------------------------------------
  // The protocol, step by step

  /** A successful verification: leave a public page for the dashboard,
      otherwise stop loading and mark the session authenticated. */
  function Verified(s: Session): Session {
    if IsPublic(s.pathname) then s.(location := Some(DashboardRoute))
    else s.(loading := false, isAuthenticated := true)
  }

  /** `handleAuthFailure`. */
  function AuthFailure(s: Session): Session {
    if IsPublic(s.pathname) then s.(loading := false)
    else s.(accessToken := None, refreshToken := None, location := Some(LoginRoute))
  }

  /** The mount effect: verify the stored access token; on failure, refresh
      once with the stored refresh token and verify the new access token. */
  function MountEffect(s: Session, verify: VerifyOutcome, refresh: RefreshOutcome, reverify: VerifyOutcome): Session {
    var s1 := s.(requests := s.requests + [TestToken(AuthorizationHeader(s.accessToken))]);
    if verify == Accepted then Verified(s1)
    else if !Present(s1.refreshToken) then AuthFailure(s1)
    else
      var s2 := s1.(requests := s1.requests + [RefreshToken(s1.refreshToken.value)]);
      match refresh
      case RefreshFailed => AuthFailure(s2)
      case Refreshed(access, rotated) =>
        var s3 := s2.(accessToken := Some(access), refreshToken := Some(rotated),
                      requests := s2.requests + [TestToken(BearerPrefix + access)]);
        if reverify == Accepted then Verified(s3) else AuthFailure(s3)
  }

  /** `login(phone, password)`: the new state and whether the call returned or threw. */
  function LoginStep(s: Session, phone: string, password: string, response: LoginResponse): (Session, LoginResult) {
    if phone == "" || password == "" then (s, Threw(InvalidCredentials))
    else
      var s1 := s.(requests := s.requests + [AdminLogin(phone, password)]);
      match response
      case RequestFailed => (s1, Threw(RequestError))
      case Resolved(status, access, refresh) =>
        var s2 := s1.(accessToken := Some(access), refreshToken := Some(refresh));
        if status == 200 then (s2.(isAuthenticated := true), LoggedIn)
        else (s2, Threw(InvalidCredentials))
  }

  /** `logout()`. */
  function LogoutStep(s: Session): Session {
    s.(isAuthenticated := false, accessToken := None, refreshToken := None, location := Some(LoginRoute))
  }

  // ---------------------------------------------------------------------
  // Request counting

  /** The number of POST /refresh-token requests in a log. */
  function CountRefreshes(rs: seq<Request>): (n: nat)
    ensures n <= |rs|
  {
    if rs == [] then 0
    else (if rs[0].RefreshToken? then 1 else 0) + CountRefreshes(rs[1..])
  }

  /** The requests a mount adds to the log. */
  function Issued(before: Session, after: Session): seq<Request>
    requires |before.requests| <= |after.requests|
  {
    after.requests[|before.requests|..]
  }

  // ---------------------------------------------------------------------
  // Properties of the mount protocol

  /** First verification accepted: on a public path the provider navigates to
      the dashboard and keeps loading; elsewhere it stops loading and is
      authenticated. Tokens are untouched either way. */
  lemma MountFirstVerifyAccepted(s: Session, refresh: RefreshOutcome, reverify: VerifyOutcome)
    requires s.loading && !s.isAuthenticated
    ensures var r := MountEffect(s, Accepted, refresh, reverify);
      && r.accessToken == s.accessToken && r.refreshToken == s.refreshToken
      && r.requests == s.requests + [TestToken(AuthorizationHeader(s.accessToken))]
      && (IsPublic(s.pathname) ==> r.location == Some(DashboardRoute) && r.loading && !r.isAuthenticated)
      && (!IsPublic(s.pathname) ==> r.location == s.location && !r.loading && r.isAuthenticated)
  {
  }

  /** The refresh endpoint is called at most once per mount, exactly when the
      first verification failed and a refresh token is stored, and with that
      token. The log grows by one, two or three requests: the verification of
      the stored access token, then the refresh, then the re-verification. */
  lemma {:induction false} MountRefreshesAtMostOnce(s: Session, verify: VerifyOutcome, refresh: RefreshOutcome, reverify: VerifyOutcome)
    ensures var r := MountEffect(s, verify, refresh, reverify);
      && |s.requests| < |r.requests| <= |s.requests| + 3
      && r.requests == s.requests + Issued(s, r)
      && Issued(s, r)[0] == TestToken(AuthorizationHeader(s.accessToken))
      && CountRefreshes(Issued(s, r)) == (if verify == Unauthorized && Present(s.refreshToken) then 1 else 0)
      && (verify == Unauthorized && Present(s.refreshToken) ==>
            Issued(s, r)[1] == RefreshToken(s.refreshToken.value))
  {
    var r := MountEffect(s, verify, refresh, reverify);
    var h := TestToken(AuthorizationHeader(s.accessToken));
    var issued: seq<Request>;
    if verify == Accepted || !Present(s.refreshToken) {
      issued := [h];
    } else {
      var rt := RefreshToken(s.refreshToken.value);
      match refresh
      case RefreshFailed =>
        issued := [h, rt];
        assert issued[1..] == [rt];
      case Refreshed(access, rotated) =>
        var v := TestToken(BearerPrefix + access);
        issued := [h, rt, v];
        assert issued[1..] == [rt, v] && [rt, v][1..] == [v];
        assert CountRefreshes([v]) == 0;
    }
    assert r.requests == s.requests + issued;
    assert Issued(s, r) == issued;
  }

  /** After a successful refresh the stored pair is exactly the returned pair
      (unless the auth-failure policy of a protected path then clears it), and
      the second verification carries the new access token. */
  lemma MountRefreshRotatesTokens(s: Session, access: string, rotated: string, reverify: VerifyOutcome)
    requires Present(s.refreshToken)
    ensures var r := MountEffect(s, Unauthorized, Refreshed(access, rotated), reverify);
      && r.requests == s.requests + [TestToken(AuthorizationHeader(s.accessToken)),
                                     RefreshToken(s.refreshToken.value),
                                     TestToken(BearerPrefix + access)]
      && BearerCredential(BearerPrefix + access) == Some(access)
      && (reverify == Accepted || IsPublic(s.pathname) ==>
            r.accessToken == Some(access) && r.refreshToken == Some(rotated))
      && (reverify == Unauthorized && !IsPublic(s.pathname) ==>
            r.accessToken.None? && r.refreshToken.None? && r.location == Some(LoginRoute))
  {
    assert (BearerPrefix + access)[..|BearerPrefix|] == BearerPrefix;
    assert (BearerPrefix + access)[|BearerPrefix|..] == access;
  }

  /** On the login page a refresh that succeeded followed by a re-verification
      that failed leaves the new pair stored, stops loading and does not
      authenticate. */
  lemma MountPublicKeepsUnverifiedPair(s: Session, access: string, rotated: string)
    requires Present(s.refreshToken) && s.pathname == LoginRoute
    requires s.loading && !s.isAuthenticated && s.location.None?
    ensures var r := MountEffect(s, Unauthorized, Refreshed(access, rotated), Unauthorized);
      && r.accessToken == Some(access) && r.refreshToken == Some(rotated)
      && !r.loading && !r.isAuthenticated && r.location.None?
  {
  }

  /** `handleAuthFailure` on a public path only stops loading; on a protected
      path it removes both tokens and navigates to the login page, leaving
      `loading` as it was. */
  lemma AuthFailurePolicy(s: Session)
    ensures IsPublic(s.pathname) ==> AuthFailure(s) == s.(loading := false)
    ensures !IsPublic(s.pathname) ==>
      var r := AuthFailure(s);
      && r.accessToken.None? && r.refreshToken.None? && r.location == Some(LoginRoute)
      && r.loading == s.loading && r.isAuthenticated == s.isAuthenticated
      && r.pathname == s.pathname && r.requests == s.requests
  {
  }

  /** The request results confirm the session: the stored access token was
      accepted, or a stored refresh token yielded a new pair whose access
      token was accepted. */
  predicate SessionConfirmed(refresh: Option<string>, verify: VerifyOutcome,
                             refreshed: RefreshOutcome, reverify: VerifyOutcome) {
    verify == Accepted || (Present(refresh) && refreshed.Refreshed? && reverify == Accepted)
  }

  /** From a freshly loaded page, which outcome a mount reaches is decided by
      whether the request results confirm the session and whether the path is
      public. A confirmed session is authenticated in place on a protected
      path and sent to the dashboard from a public one. Every other
      combination runs `handleAuthFailure`: a failed verification without a
      refresh token, a rejected refresh, or a failed re-verification. It
      clears storage and sends a protected path to the login page, and
      renders a public one in place. Tokens are replaced only by a refresh
      that succeeded. */
  lemma MountDecidedByOutcomes(pathname: string, access: Option<string>, refresh: Option<string>,
                               verify: VerifyOutcome, refreshed: RefreshOutcome, reverify: VerifyOutcome)
    ensures var r := MountEffect(Loaded(pathname, access, refresh), verify, refreshed, reverify);
      var ok := SessionConfirmed(refresh, verify, refreshed, reverify);
      var rotated := verify == Unauthorized && Present(refresh) && refreshed.Refreshed?;
      && (r.isAuthenticated <==> ok && !IsPublic(pathname))
      && (ok && IsPublic(pathname) ==> r.location == Some(DashboardRoute) && r.loading)
      && (ok && !IsPublic(pathname) ==> r.location.None? && !r.loading)
      && (!ok && !IsPublic(pathname) ==>
            r.accessToken.None? && r.refreshToken.None? && r.location == Some(LoginRoute) && r.loading)
      && (!ok && IsPublic(pathname) ==> r.location.None? && !r.loading)
      && (ok || IsPublic(pathname) ==>
            if rotated
            then r.accessToken == Some(refreshed.accessToken) && r.refreshToken == Some(refreshed.refreshToken)
            else r.accessToken == access && r.refreshToken == refresh)
  {
  }

  /** From a freshly loaded page the mount ends in exactly one of four
      outcomes, and children are rendered exactly when no navigation was
      issued: there is no flash of the login page for a valid session and no
      flash of a protected page for an invalid one. On a protected path the
      children render only for an authenticated session. The first two
      outcomes are reached exactly when the request results confirm the
      session. */
  lemma MountOutcomes(pathname: string, access: Option<string>, refresh: Option<string>,
                      verify: VerifyOutcome, refreshed: RefreshOutcome, reverify: VerifyOutcome)
    ensures var r := MountEffect(Loaded(pathname, access, refresh), verify, refreshed, reverify);
      && (|| (r.location == Some(DashboardRoute) && r.loading && !r.isAuthenticated && IsPublic(pathname))
          || (r.location.None? && !r.loading && r.isAuthenticated && !IsPublic(pathname))
          || (r.location.None? && !r.loading && !r.isAuthenticated && IsPublic(pathname))
          || (r.location == Some(LoginRoute) && r.loading && !r.isAuthenticated && !IsPublic(pathname)
              && r.accessToken.None? && r.refreshToken.None?))
      && (RendersChildren(r) <==> r.location.None?)
      && (RendersChildren(r) && !IsPublic(pathname) ==> r.isAuthenticated)
      && (r.isAuthenticated || r.location == Some(DashboardRoute) <==>
            SessionConfirmed(refresh, verify, refreshed, reverify))
  {
    MountDecidedByOutcomes(pathname, access, refresh, verify, refreshed, reverify);
  }

  /** A stale access token and no refresh token on `/dashboard`: one
      verification with the stale token, no refresh, storage cleared,
      navigation to the login page. */
  lemma MountStaleTokenWithoutRefresh()
    ensures var r := MountEffect(Loaded(DashboardRoute, Some("stale"), None), Unauthorized, RefreshFailed, Accepted);
      && r.requests == [TestToken("Bearer stale")]
      && r.accessToken.None? && r.refreshToken.None? && r.location == Some(LoginRoute)
  {
    assert AuthorizationHeader(Some("stale")) == "Bearer stale";
  }

  /** No stored tokens on `/login`: the login page renders in place. */
  lemma MountNoTokensOnLogin(refreshed: RefreshOutcome, reverify: VerifyOutcome)
    ensures var r := MountEffect(Loaded(LoginRoute, None, None), Unauthorized, refreshed, reverify);
      && r.requests == [TestToken("")]
      && !r.loading && !r.isAuthenticated && r.location.None?
      && r.accessToken.None? && r.refreshToken.None?
  {
  }

  // ---------------------------------------------------------------------
  // Properties of login and logout

  /** With an empty phone or password, `login` throws "Invalid credentials",
      sends nothing and changes nothing. */
  lemma LoginRejectsEmptyCredentials(s: Session, phone: string, password: string, response: LoginResponse)
    requires phone == "" || password == ""
    ensures LoginStep(s, phone, password, response) == (s, Threw(InvalidCredentials))
  {
  }

  /** With both credentials given, `login` sends exactly one request. A resolved
      response stores both returned tokens whatever its status; only status
      200 authenticates, any other status throws with the tokens already
      stored. A rejected request throws and stores nothing. */
  lemma LoginStoresBeforeStatusCheck(s: Session, phone: string, password: string, response: LoginResponse)
    requires phone != "" && password != ""
    ensures var (r, result) := LoginStep(s, phone, password, response);
      && r.requests == s.requests + [AdminLogin(phone, password)]
      && r.loading == s.loading && r.location == s.location
      && (response.Resolved? ==>
            && r.accessToken == Some(response.accessToken)
            && r.refreshToken == Some(response.refreshToken)
            && (result == LoggedIn <==> response.status == 200)
            && (response.status == 200 ==> r.isAuthenticated)
            && (response.status != 200 ==> result == Threw(InvalidCredentials) && r.isAuthenticated == s.isAuthenticated))
      && (response.RequestFailed? ==>
            r == s.(requests := r.requests) && result == Threw(RequestError))
  {
  }

  /** `logout` de-authenticates, empties storage, even when only one token was
      stored, and navigates to the login page; a second `logout` changes
      nothing more. */
  lemma LogoutClearsAndIsIdempotent(s: Session)
    ensures var r := LogoutStep(s);
      && !r.isAuthenticated && r.accessToken.None? && r.refreshToken.None?
      && r.location == Some(LoginRoute)
      && r.loading == s.loading && r.requests == s.requests
      && LogoutStep(r) == r
  {
  }

  // ---------------------------------------------------------------------
  // The provider itself

  class AuthProvider {
    var accessToken: Option<string>
    var refreshToken: Option<string>
    var loading: bool
    var isAuthenticated: bool
    var pathname: string
    var location: Option<string>
    var requests: seq<Request>

    function State(): Session
      reads this
    {
      Session(accessToken, refreshToken, loading, isAuthenticated, pathname, location, requests)
    }

    /** A page load: storage as found, `loading` true, not authenticated. */
    constructor (path: string, storedAccess: Option<string>, storedRefresh: Option<string>)
      ensures State() == Loaded(path, storedAccess, storedRefresh)
    {
      accessToken, refreshToken := storedAccess, storedRefresh;
      loading, isAuthenticated := true, false;
      pathname, location, requests := path, None, [];
    }

    /** The gate in front of the children. */
    function ShowsChildren(): (shown: bool)
      reads this
      ensures shown <==> RendersChildren(State())
    {
      !loading
    }

    method OnVerified()
      modifies this
      ensures State() == Verified(old(State()))
    {
      if IsPublic(pathname) {
        location := Some(DashboardRoute);
      } else {
        loading := false;
        isAuthenticated := true;
      }
    }

    method HandleAuthFailure()
      modifies this
      ensures State() == AuthFailure(old(State()))
    {
      if IsPublic(pathname) {
        loading := false;
      } else {
        accessToken := None;
        refreshToken := None;
        location := Some(LoginRoute);
      }
    }

    /** The mount effect, with the outcomes of its (at most three) requests. */
    method Mount(verify: VerifyOutcome, refresh: RefreshOutcome, reverify: VerifyOutcome)
      modifies this
      ensures State() == MountEffect(old(State()), verify, refresh, reverify)
    {
      var token := accessToken;
      requests := requests + [TestToken(AuthorizationHeader(token))];
      if verify == Accepted {
        OnVerified();
      } else {
        var stored := refreshToken;
        if Present(stored) {
          requests := requests + [RefreshToken(stored.value)];
          match refresh {
            case RefreshFailed =>
              HandleAuthFailure();
            case Refreshed(access, rotated) =>
              accessToken := Some(access);
              refreshToken := Some(rotated);
              requests := requests + [TestToken(BearerPrefix + access)];
              if reverify == Accepted {
                OnVerified();
              } else {
                HandleAuthFailure();
              }
          }
        } else {
          HandleAuthFailure();
        }
      }
    }

    method Login(phone: string, password: string, response: LoginResponse) returns (result: LoginResult)
      modifies this
      ensures (State(), result) == LoginStep(old(State()), phone, password, response)
    {
      if phone != "" && password != "" {
        requests := requests + [AdminLogin(phone, password)];
        match response {
          case RequestFailed =>
            result := Threw(RequestError);
          case Resolved(status, access, refresh) =>
            accessToken := Some(access);
            refreshToken := Some(refresh);
            if status == 200 {
              isAuthenticated := true;
              result := LoggedIn;
            } else {
              result := Threw(InvalidCredentials);
            }
        }
      } else {
        result := Threw(InvalidCredentials);
      }
    }

    method Logout()
      modifies this
      ensures State() == LogoutStep(old(State()))
    {
      isAuthenticated := false;
      accessToken := None;
      refreshToken := None;
      location := Some(LoginRoute);
    }
  }
}
