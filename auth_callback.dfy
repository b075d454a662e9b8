/**
 * The OAuth callback screen: reads the URL that opened the application,
 * establishes the session from its tokens (or accepts an existing session),
 * and either redirects to the tabs or shows an error.  The replies of
 * `Linking.getInitialURL`, `setSession` and `getSession` are parameters.
 */
module AuthCallback {
  import opened Common
  import opened AuthProvider

  /** The replies of the three foreign calls the handler may make. */
  datatype CallbackReplies = CallbackReplies(
    initialUrl: Reply<Option<string>>,
    setSession: Reply<Option<AuthError>>,
    getSession: Reply<bool>)

  /**
   * What one run of the handler does: the error it shows (none when it calls
   * no `setError`), whether it redirects to the tabs, and the tokens it used.
   */
  datatype CallbackOutcome = CallbackOutcome(
    error: Option<string>,
    redirectToTabs: bool,
    sessionSetWith: Option<TokenPair>)

  const AuthFailed: string := "Authentication failed. Please try again."
  const NoAuthData: string := "No authentication data found."
  const CallbackFailed: string := "An error occurred during authentication."

  /** Accepting an already existing session, or failing with `missing`. */
  function ExistingSession(reply: Reply<bool>, navReady: bool, missing: string): (o: CallbackOutcome)
    ensures o.sessionSetWith.None?
    ensures reply == Returns(true) ==> o == CallbackOutcome(None, navReady, None)
    ensures reply == Returns(false) ==> o.error == Some(missing) && !o.redirectToTabs
    ensures reply.Throws? ==> o.error == Some(CallbackFailed) && !o.redirectToTabs
  {
    match reply
    case Throws(_) => CallbackOutcome(Some(CallbackFailed), false, None)
    case Returns(hasSession) =>
      if hasSession then CallbackOutcome(None, navReady, None)
      else CallbackOutcome(Some(missing), false, None)
  }

  /** The outcome of `handleCallback`, given whether the navigation key is present. */
  function CallbackResult(rs: CallbackReplies, navReady: bool): (o: CallbackOutcome)
    ensures o.redirectToTabs ==> navReady && o.error.None?
    ensures rs.initialUrl.Throws? ==> o == CallbackOutcome(Some(CallbackFailed), false, None)
    ensures o.sessionSetWith.Some? ==>
      rs.initialUrl.Returns? && Present(rs.initialUrl.value) &&
      var t := ExtractTokens(rs.initialUrl.value.value);
      Present(t.access) && Present(t.refresh) &&
      o.sessionSetWith == Some(TokenPair(t.access.value, t.refresh.value))
    ensures o.sessionSetWith.Some? && rs.setSession.Throws? ==>
      o.error == Some(CallbackFailed) && !o.redirectToTabs
    ensures rs.initialUrl.Returns? && o.sessionSetWith.None? && rs.getSession.Throws? ==>
      o.error == Some(CallbackFailed) && !o.redirectToTabs
  {
    match rs.initialUrl
    case Throws(_) => CallbackOutcome(Some(CallbackFailed), false, None)
    case Returns(url) =>
      if Present(url) then
        var t := ExtractTokens(url.value);
        if Present(t.access) && Present(t.refresh) then
          var pair := Some(TokenPair(t.access.value, t.refresh.value));
          match rs.setSession
          case Throws(_) => CallbackOutcome(Some(CallbackFailed), false, pair)
          case Returns(sessionError) =>
            if sessionError.Some? then CallbackOutcome(Some(sessionError.value.message), false, pair)
            else CallbackOutcome(None, navReady, pair)
        else ExistingSession(rs.getSession, navReady, AuthFailed)
      else ExistingSession(rs.getSession, navReady, NoAuthData)
  }

  /** With the navigation key present, the handler redirects exactly when it shows no error. */
  lemma RedirectsIffNoError(rs: CallbackReplies)
    ensures CallbackResult(rs, true).redirectToTabs <==> CallbackResult(rs, true).error.None?
  {
  }

  /** A session error from establishing the session is shown with its own message. */
  lemma SessionErrorShown(rs: CallbackReplies, navReady: bool, e: AuthError)
    requires rs.initialUrl.Returns? && Present(rs.initialUrl.value)
    requires var t := ExtractTokens(rs.initialUrl.value.value); Present(t.access) && Present(t.refresh)
    requires rs.setSession == Returns(Some(e))
    ensures CallbackResult(rs, navReady) == CallbackOutcome(Some(e.message), false, CallbackResult(rs, navReady).sessionSetWith)
    ensures CallbackResult(rs, navReady).sessionSetWith.Some?
  {
  }

  /** Without usable tokens the handler relies on an existing session, and names the failure. */
  lemma MissingTokensNeedSession(rs: CallbackReplies, navReady: bool)
    requires rs.getSession.Returns?
    requires rs.initialUrl.Returns?
    requires Present(rs.initialUrl.value) ==>
      var t := ExtractTokens(rs.initialUrl.value.value); !(Present(t.access) && Present(t.refresh))
    ensures var o := CallbackResult(rs, navReady);
      && o.sessionSetWith.None?
      && (rs.getSession.value ==> o == CallbackOutcome(None, navReady, None))
      && (!rs.getSession.value && Present(rs.initialUrl.value) ==> o.error == Some(AuthFailed))
      && (!rs.getSession.value && !Present(rs.initialUrl.value) ==> o.error == Some(NoAuthData))
  {
  }

  /** The callback screen and the OAuth flow read the same tokens from the same URL. */
  lemma SameTokensAsOAuthFlow(rs: CallbackReplies, ors: OAuthReplies)
    requires rs.initialUrl.Returns? && Present(rs.initialUrl.value)
    requires ReachesCallback(ors) && ors.browser.value.url == rs.initialUrl.value
    ensures CallbackResult(rs, true).sessionSetWith == SignInWithOAuth(ors).sessionSetWith
  {
    var url := rs.initialUrl.value.value;
    var t := ExtractTokens(url);
    var pair := if Present(t.access) && Present(t.refresh) then Some(TokenPair(t.access.value, t.refresh.value)) else None;
    assert SignInWithOAuth(ors) == AfterCallback(url, ors);
    assert AfterCallback(url, ors).sessionSetWith == pair;
    assert CallbackResult(rs, true).sessionSetWith == pair;
  }

  class AuthCallbackScreen {
    var error: Option<string>
    var processing: bool
    /** Whether `router.replace("/(tabs)")` has been called. */
    var redirectedToTabs: bool

    constructor ()
      ensures error == None && processing && !redirectedToTabs
    {
      error := None;
      processing := true;
      redirectedToTabs := false;
    }

    /** Settles the screen with a session-check outcome: redirect or show `missing`. */
    method CheckExistingSession(reply: Reply<bool>, navReady: bool, missing: string)
      modifies this
      ensures var o := ExistingSession(reply, navReady, missing);
        && error == (if o.error.Some? then o.error else old(error))
        && redirectedToTabs == (old(redirectedToTabs) || o.redirectToTabs)
        && processing == old(processing)
    {
      match reply {
        case Throws(_) =>
          error := Some(CallbackFailed);
        case Returns(hasSession) =>
          if hasSession {
            if navReady {
              redirectedToTabs := true;
            }
          } else {
            error := Some(missing);
          }
      }
    }

    /** `handleCallback`: every path ends with `processing` false (the `finally` block). */
    method HandleCallback(rs: CallbackReplies, navReady: bool)
      modifies this
      ensures !processing
      ensures var o := CallbackResult(rs, navReady);
        && error == (if o.error.Some? then o.error else old(error))
        && redirectedToTabs == (old(redirectedToTabs) || o.redirectToTabs)
    {
      match rs.initialUrl {
        case Throws(_) =>
          error := Some(CallbackFailed);
        case Returns(url) =>
          if Present(url) {
            var accessToken: Option<string> := None;
            var refreshToken: Option<string> := None;
            var tokens := ExtractTokens(url.value);
            accessToken, refreshToken := tokens.access, tokens.refresh;
            if Present(accessToken) && Present(refreshToken) {
              match rs.setSession {
                case Throws(_) =>
                  error := Some(CallbackFailed);
                case Returns(sessionError) =>
                  if sessionError.Some? {
                    error := Some(sessionError.value.message);
                  } else if navReady {
                    redirectedToTabs := true;
                  }
              }
            } else {
              CheckExistingSession(rs.getSession, navReady, AuthFailed);
            }
          } else {
            CheckExistingSession(rs.getSession, navReady, NoAuthData);
          }
      }
      processing := false;
    }

    /** The effect on the navigation key: the handler runs only once the key is present. */
    method OnNavigationKey(keyPresent: bool, rs: CallbackReplies)
      modifies this
      ensures !keyPresent ==> error == old(error) && processing == old(processing)
                              && redirectedToTabs == old(redirectedToTabs)
      ensures keyPresent ==>
        var o := CallbackResult(rs, true);
        && !processing
        && error == (if o.error.Some? then o.error else old(error))
        && redirectedToTabs == (old(redirectedToTabs) || o.redirectToTabs)
    {
      if keyPresent {
        HandleCallback(rs, keyPresent);
      }
    }
  }
}
