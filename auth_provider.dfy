/**
 * The authentication session manager: the session state the application
 * observes, the e-mail pass-throughs, and the OAuth browser-redirect flow.
 * Every call into the identity provider, the browser or the platform is an
 * oracle: its reply is a parameter, either a returned value or a thrown error.
 */
module AuthProvider {
  import opened Common
  import opened UrlParams

  datatype AuthError = AuthError(message: string)

  /** What an awaited foreign call produced: a value, or an exception. */
  datatype Reply<+T> = Returns(value: T) | Throws(error: AuthError)

  /** JavaScript truthiness of a `string | null`: present and non-empty. */
  predicate Present(s: Option<string>) {
    s.Some? && s.value != ""
  }

  // ---------------------------------------------------------------------------
  // Tokens in a callback URL

  datatype Tokens = Tokens(access: Option<string>, refresh: Option<string>)

  /** `access_token` and `refresh_token` as `URLSearchParams.get` reads them from `q`. */
  function TokensIn(q: string): (t: Tokens)
    ensures t.access.None? <==> forall k :: 0 <= k < |Parse(q)| ==> Parse(q)[k].name != "access_token"
    ensures t.refresh.None? <==> forall k :: 0 <= k < |Parse(q)| ==> Parse(q)[k].name != "refresh_token"
    ensures q == "" ==> t == Tokens(None, None)
    ensures t.access.Some? ==>
      exists k :: 0 <= k < |Parse(q)| && Parse(q)[k] == Param("access_token", t.access.value)
                  && forall j :: 0 <= j < k ==> Parse(q)[j].name != "access_token"
    ensures t.refresh.Some? ==>
      exists k :: 0 <= k < |Parse(q)| && Parse(q)[k] == Param("refresh_token", t.refresh.value)
                  && forall j :: 0 <= j < k ==> Parse(q)[j].name != "refresh_token"
  {
    var ps := Parse(q);
    Tokens(Get(ps, "access_token"), Get(ps, "refresh_token"))
  }

  /**
   * `url.split("#")[1]`: the text after the first `#`, up to the next `#` or
   * the end of the URL.
   */
  function FragmentOf(url: string): (f: string)
    requires '#' in url
    ensures var rest := url[IndexOf(url, '#') + 1..];
      && |f| <= |rest| && rest[..|f|] == f && '#' !in f
      && (|f| == |rest| || rest[|f|] == '#')
  {
    SecondPiece(url, '#');
    Split(url, '#')[1]
  }

  /**
   * `url.split("?")[1].split("#")[0]`: the text after the first `?`, up to the
   * next `?` or `#` or the end of the URL.
   */
  function QueryOf(url: string): (q: string)
    requires '?' in url
    ensures var rest := url[IndexOf(url, '?') + 1..];
      && |q| <= |rest| && rest[..|q|] == q && '?' !in q && '#' !in q
      && (|q| == |rest| || rest[|q|] == '?' || rest[|q|] == '#')
  {
    FirstPieceOfSecondPiece(url, '?', '#');
    Split(Split(url, '?')[1], '#')[0]
  }

  /** Whether the query is consulted and used: no usable fragment access token, and a non-empty query. */
  predicate UsesQuery(url: string) {
    && ('#' in url ==> !Present(TokensIn(FragmentOf(url)).access))
    && '?' in url
    && QueryOf(url) != ""
  }

  /**
   * The tokens of a callback URL: read from the fragment first; when that gives
   * no access token, both are read again from the query, if there is one.
   */
  function ExtractTokens(url: string): (t: Tokens)
    ensures '#' in url && Present(TokensIn(FragmentOf(url)).access) ==> t == TokensIn(FragmentOf(url))
    ensures UsesQuery(url) ==> t == TokensIn(QueryOf(url))
    ensures !UsesQuery(url) && '#' in url ==> t == TokensIn(FragmentOf(url))
    ensures !UsesQuery(url) && '#' !in url ==> t == Tokens(None, None)
  {
    var fromFragment := if '#' in url then TokensIn(FragmentOf(url)) else Tokens(None, None);
    if !Present(fromFragment.access) && '?' in url then
      var queryPart := QueryOf(url);
      if queryPart != "" then TokensIn(queryPart) else fromFragment
    else fromFragment
  }

  /** The fragment is the text between the first `#` and the next one (or the end). */
  lemma FragmentIsBetweenHashes(a: string, b: string, rest: string)
    requires '#' !in a && '#' !in b
    requires rest == [] || rest[0] == '#'
    ensures '#' in a + ['#'] + b + rest
    ensures FragmentOf(a + ['#'] + b + rest) == b
  {
    var url := a + ['#'] + b + rest;
    assert url == a + ['#'] + (b + rest);
    IndexOfAfterPrefix(a, '#', b + rest);
    var after := url[|a| + 1..];
    assert after == b + rest;
    var f := FragmentOf(url);
    assert forall k :: 0 <= k < |b| ==> after[k] == b[k] && after[k] != '#';
    assert |b| < |after| ==> after[|b|] == '#';
    assert |f| == |b|;
    assert forall k :: 0 <= k < |f| ==> f[k] == after[k] == b[k];
  }

  /**
   * The query part is the text after the first `?`, up to the next `?` or `#`
   * (or the end).
   */
  lemma QueryIsAfterQuestionMark(a: string, b: string, rest: string)
    requires '?' !in a && '?' !in b && '#' !in b
    requires rest == [] || rest[0] == '#' || rest[0] == '?'
    ensures '?' in a + ['?'] + b + rest
    ensures QueryOf(a + ['?'] + b + rest) == b
  {
    var url := a + ['?'] + b + rest;
    assert url == a + ['?'] + (b + rest);
    IndexOfAfterPrefix(a, '?', b + rest);
    var after := url[|a| + 1..];
    assert after == b + rest;
    var q := QueryOf(url);
    assert forall k :: 0 <= k < |b| ==> after[k] == b[k] && after[k] != '?' && after[k] != '#';
    assert |b| < |after| ==> after[|b|] == '#' || after[|b|] == '?';
    assert |q| == |b|;
    assert forall k :: 0 <= k < |q| ==> q[k] == after[k] == b[k];
  }

  /** The query string that `n1=v1&n2=v2` spells. */
  function TwoParams(n1: string, v1: string, n2: string, v2: string): string {
    n1 + "=" + v1 + "&" + n2 + "=" + v2
  }

  /** `access_token=A&refresh_token=B` gives the tokens `A` and `B`. */
  lemma TokensInTwoParams(access: string, refresh: string)
    requires !('&' in access) && !('&' in refresh)
    ensures TokensIn(TwoParams("access_token", access, "refresh_token", refresh))
         == Tokens(Some(access), Some(refresh))
  {
    ParamsFree(access, refresh);
    ParseTwoPairs("access_token", access, "refresh_token", refresh);
    var ps := [Param("access_token", access), Param("refresh_token", refresh)];
    assert ps[1..] == [Param("refresh_token", refresh)];
    assert Get(ps, "access_token") == Some(access);
    assert Get(ps, "refresh_token") == Some(refresh);
  }

  /** A callback URL `base#access_token=A&refresh_token=B` carries exactly `A` and `B`. */
  lemma TokensFromFragment(base: string, access: string, refresh: string)
    requires '#' !in base
    requires access != "" && !('&' in access) && !('#' in access) && !('&' in refresh) && !('#' in refresh)
    ensures ExtractTokens(base + ['#'] + TwoParams("access_token", access, "refresh_token", refresh))
         == Tokens(Some(access), Some(refresh))
  {
    var q := TwoParams("access_token", access, "refresh_token", refresh);
    var url := base + ['#'] + q;
    ParamsFree(access, refresh);
    FragmentIsBetweenHashes(base, q, []);
    assert url == base + ['#'] + q + [];
    assert FragmentOf(url) == q;
    TokensInTwoParams(access, refresh);
    assert Present(TokensIn(FragmentOf(url)).access);
  }

  /** The same parameters in the query instead of the fragment give the same tokens. */
  lemma TokensFromQuery(base: string, access: string, refresh: string)
    requires '#' !in base && '?' !in base
    requires access != "" && !('&' in access) && !('#' in access) && !('&' in refresh) && !('#' in refresh)
    requires !('?' in access) && !('?' in refresh)
    ensures ExtractTokens(base + ['?'] + TwoParams("access_token", access, "refresh_token", refresh))
         == Tokens(Some(access), Some(refresh))
  {
    var q := TwoParams("access_token", access, "refresh_token", refresh);
    var url := base + ['?'] + q;
    ParamsFree(access, refresh);
    QueryIsAfterQuestionMark(base, q, []);
    assert url == base + ['?'] + q + [];
    assert QueryOf(url) == q;
    assert '#' !in url;
    TokensInTwoParams(access, refresh);
    assert q != "";
    assert UsesQuery(url);
  }

  /** A URL with neither `#` nor `?` carries no tokens. */
  lemma NoTokensWithoutFragmentOrQuery(url: string)
    requires '#' !in url && '?' !in url
    ensures ExtractTokens(url) == Tokens(None, None)
  {
  }

  /** Which separators `access_token=A&refresh_token=B` contains besides its one `&`. */
  lemma ParamsFree(access: string, refresh: string)
    ensures !('#' in access) && !('#' in refresh) ==> '#' !in TwoParams("access_token", access, "refresh_token", refresh)
    ensures !('?' in access) && !('?' in refresh) ==> '?' !in TwoParams("access_token", access, "refresh_token", refresh)
    ensures !('&' in access) ==> '&' !in "access_token" + access
    ensures !('&' in refresh) ==> '&' !in "refresh_token" + refresh
  {
    var q := TwoParams("access_token", access, "refresh_token", refresh);
    assert q == "access_token" + "=" + access + "&" + "refresh_token" + "=" + refresh;
  }

  // ---------------------------------------------------------------------------
  // The OAuth browser-redirect flow

  /** What the system browser reports back (`openAuthSessionAsync`). */
  datatype BrowserResult =
    | BrowserSuccess(url: Option<string>)
    | BrowserCancel
    | BrowserDismiss
    | BrowserOpened
    | BrowserLocked

  /** The provider's answer to the authorisation-URL request: `data.url` and `error`. */
  datatype AuthorizeResponse = AuthorizeResponse(url: Option<string>, error: Option<AuthError>)

  /** The replies of the four foreign calls the flow may make, in order. */
  datatype OAuthReplies = OAuthReplies(
    authorize: Reply<AuthorizeResponse>,
    browser: Reply<BrowserResult>,
    setSession: Reply<Option<AuthError>>,
    getSession: Reply<bool>)

  datatype TokenPair = TokenPair(access: string, refresh: string)

  /** The flow's `{ error }` result, and the tokens `setSession` was called with, if it was. */
  datatype OAuthRun = OAuthRun(error: Option<AuthError>, sessionSetWith: Option<TokenPair>)

  const Cancelled: AuthError := AuthError("Authentication was cancelled")
  const TokensMissing: AuthError := AuthError("Failed to get authentication tokens")

  /** The callback URL of a browser result, when the flow goes on to read it. */
  predicate ReachesCallback(rs: OAuthReplies) {
    && rs.authorize.Returns? && rs.authorize.value.error.None? && Present(rs.authorize.value.url)
    && rs.browser.Returns? && rs.browser.value.BrowserSuccess? && Present(rs.browser.value.url)
  }

  /** The steps after the browser returned `url`: set the session from its tokens, or look for one. */
  function AfterCallback(url: string, rs: OAuthReplies): (run: OAuthRun)
    ensures run.sessionSetWith.Some? ==>
      var t := ExtractTokens(url);
      Present(t.access) && Present(t.refresh) &&
      run.sessionSetWith == Some(TokenPair(t.access.value, t.refresh.value))
    ensures var t := ExtractTokens(url);
      Present(t.access) && Present(t.refresh) ==>
      run.sessionSetWith.Some? && (rs.setSession.Returns? ==> run.error == rs.setSession.value)
  {
    var t := ExtractTokens(url);
    if Present(t.access) && Present(t.refresh) then
      var pair := Some(TokenPair(t.access.value, t.refresh.value));
      match rs.setSession
      case Throws(e) => OAuthRun(Some(e), pair)
      case Returns(sessionError) => OAuthRun(sessionError, pair)
    else
      match rs.getSession
      case Throws(e) => OAuthRun(Some(e), None)
      case Returns(hasSession) => OAuthRun(if hasSession then None else Some(TokensMissing), None)
  }

  /** `signInWithOAuth(provider)`. */
  function SignInWithOAuth(rs: OAuthReplies): (run: OAuthRun)
    ensures rs.authorize.Returns? && rs.authorize.value.error.Some? ==>
      run == OAuthRun(rs.authorize.value.error, None)
    ensures run.sessionSetWith.Some? ==>
      ReachesCallback(rs) &&
      var t := ExtractTokens(rs.browser.value.url.value);
      Present(t.access) && Present(t.refresh) &&
      run.sessionSetWith == Some(TokenPair(t.access.value, t.refresh.value))
    ensures (&& rs.authorize.Returns? && rs.authorize.value.error.None? && Present(rs.authorize.value.url)
             && rs.browser == Returns(BrowserCancel)) ==> run == OAuthRun(Some(Cancelled), None)
    ensures (&& ReachesCallback(rs) && rs.setSession.Returns?
             && Present(ExtractTokens(rs.browser.value.url.value).access)
             && Present(ExtractTokens(rs.browser.value.url.value).refresh)) ==>
      run.error == rs.setSession.value
  {
    match rs.authorize
    case Throws(e) => OAuthRun(Some(e), None)
    case Returns(response) =>
      if response.error.Some? then OAuthRun(response.error, None)
      else if !Present(response.url) then OAuthRun(None, None)
      else
        match rs.browser
        case Throws(e) => OAuthRun(Some(e), None)
        case Returns(result) =>
          if result.BrowserSuccess? && Present(result.url) then AfterCallback(result.url.value, rs)
          else if result.BrowserCancel? then OAuthRun(Some(Cancelled), None)
          else OAuthRun(None, None)
  }

  /** Exactly when the flow reports no error. */
  lemma OAuthSucceedsIff(rs: OAuthReplies)
    ensures SignInWithOAuth(rs).error.None? <==>
      && rs.authorize.Returns? && rs.authorize.value.error.None?
      && (!Present(rs.authorize.value.url) ||
          (&& rs.browser.Returns?
           && (if rs.browser.value.BrowserSuccess? && Present(rs.browser.value.url) then
                 var t := ExtractTokens(rs.browser.value.url.value);
                 if Present(t.access) && Present(t.refresh) then rs.setSession == Returns(None)
                 else rs.getSession == Returns(true)
               else !rs.browser.value.BrowserCancel?)))
  {
  }

  /** A provider error ends the flow before the browser: no later reply can change the result. */
  lemma ProviderErrorComesFirst(rs1: OAuthReplies, rs2: OAuthReplies)
    requires rs1.authorize == rs2.authorize
    requires rs1.authorize.Throws? || rs1.authorize.value.error.Some? || !Present(rs1.authorize.value.url)
    ensures SignInWithOAuth(rs1) == SignInWithOAuth(rs2)
    ensures SignInWithOAuth(rs1).sessionSetWith.None?
  {
  }

  /** Without tokens in the callback, the flow succeeds exactly when a session already exists. */
  lemma MissingTokensNeedExistingSession(rs: OAuthReplies)
    requires ReachesCallback(rs)
    requires var t := ExtractTokens(rs.browser.value.url.value); !(Present(t.access) && Present(t.refresh))
    requires rs.getSession.Returns?
    ensures SignInWithOAuth(rs).sessionSetWith.None?
    ensures SignInWithOAuth(rs).error.None? <==> rs.getSession.value
    ensures !rs.getSession.value ==> SignInWithOAuth(rs).error == Some(TokensMissing)
  {
  }

  /** A fragment callback with both tokens sets the session with them, and its error is the result. */
  lemma OAuthFragmentCallback(rs: OAuthReplies, base: string, access: string, refresh: string)
    requires rs.authorize.Returns? && rs.authorize.value.error.None? && Present(rs.authorize.value.url)
    requires '#' !in base
    requires access != "" && refresh != ""
    requires !('&' in access) && !('#' in access) && !('&' in refresh) && !('#' in refresh)
    requires rs.browser == Returns(BrowserSuccess(Some(base + ['#'] + TwoParams("access_token", access, "refresh_token", refresh))))
    requires rs.setSession.Returns?
    ensures SignInWithOAuth(rs) == OAuthRun(rs.setSession.value, Some(TokenPair(access, refresh)))
  {
    var url := base + ['#'] + TwoParams("access_token", access, "refresh_token", refresh);
    TokensFromFragment(base, access, refresh);
    assert ReachesCallback(rs);
    assert SignInWithOAuth(rs) == AfterCallback(url, rs);
  }

  // ---------------------------------------------------------------------------
  // Session state

  datatype User = User(id: string)
  datatype Session = Session(user: User, accessToken: string, refreshToken: string)

  /** The provider's session-change events (the model treats them all alike, as the source does). */
  datatype AuthEvent = InitialSession | SignedIn | SignedOut | TokenRefreshed | UserUpdated | PasswordRecovery

  /** `session?.user ?? null`. */
  function UserOf(s: Option<Session>): (u: Option<User>)
    ensures u.Some? <==> s.Some?
    ensures s.Some? ==> u.value == s.value.user
  {
    match s
    case None => None
    case Some(session) => Some(session.user)
  }

  /** The state the provider component exposes: `user`, `session`, `isLoading`. */
  class AuthState {
    var user: Option<User>
    var session: Option<Session>
    var isLoading: bool

    /** The user is always the session's user, and no session is known while loading. */
    ghost predicate Valid()
      reads this
    {
      user == UserOf(session) && (isLoading ==> session.None?)
    }

    constructor ()
      ensures Valid()
      ensures isLoading && user.None? && session.None?
    {
      user := None;
      session := None;
      isLoading := true;
    }

    /** The resolution of the initial `getSession()` call. */
    method OnInitialSession(s: Option<Session>)
      requires Valid()
      modifies this
      ensures Valid()
      ensures session == s && user == UserOf(s) && !isLoading
    {
      session := s;
      user := UserOf(s);
      isLoading := false;
    }

    /** A session-change notification from the subscription. */
    method OnAuthStateChange(event: AuthEvent, s: Option<Session>)
      requires Valid()
      modifies this
      ensures Valid()
      ensures session == s && user == UserOf(s) && !isLoading
    {
      session := s;
      user := UserOf(s);
      isLoading := false;
    }

    /** `signInWithEmail`: the provider's error, unchanged; the local state is not touched. */
    method SignInWithEmail(email: string, password: string, providerError: Option<AuthError>)
      returns (error: Option<AuthError>)
      requires Valid()
      ensures Valid()
      ensures error == providerError
    {
      error := providerError;
    }

    /** `signUpWithEmail`: the provider's error, unchanged; the local state is not touched. */
    method SignUpWithEmail(email: string, password: string, providerError: Option<AuthError>)
      returns (error: Option<AuthError>)
      requires Valid()
      ensures Valid()
      ensures error == providerError
    {
      error := providerError;
    }
  }
}
