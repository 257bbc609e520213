/**
 * The sign-in page: the email/password handler, the two OAuth handlers (one
 * model with the provider as a parameter), the redirect of a signed-in
 * visitor, and the effect that reads the `reset` and `error` query parameters.
 * Every call into the identity provider is an input: its result or what it threw.
 */
module SignIn {
  import opened Common

  const HomePath: string := "/home"
  const SsoCallbackPath: string := "/auth/sso-callback"
  const SuccessBannerMillis: int := 5000

  const NotReadyMessage: string := "Authentication service is not ready. Please try again."
  const NotAvailableMessage: string := "Authentication service is not available. Please refresh the page."
  const MissingFieldsMessage: string := "Please enter both email and password."
  const VerificationMessage: string := "Sign-in requires additional verification. Please check your email."
  const EmailRetryMessage: string := "Failed to sign in. Please try again."
  const CredentialsMessage: string := "Failed to sign in. Please check your credentials and try again."
  const AuthFailedPrefix: string := "Authentication failed: "

  datatype OAuthProvider = Google | Facebook

  function ProviderName(p: OAuthProvider): string {
    match p
    case Google => "Google"
    case Facebook => "Facebook"
  }

  function Strategy(p: OAuthProvider): string {
    match p
    case Google => "oauth_google"
    case Facebook => "oauth_facebook"
  }

  function OAuthRetryMessage(p: OAuthProvider): string {
    "Failed to sign in with " + ProviderName(p) + ". Please try again."
  }

  /** The multi-line configuration hint shown when the provider threw something that is not an error object. */
  function OAuthConfigHint(p: OAuthProvider): string {
    "Failed to sign in with " + ProviderName(p) + ". Please check:\n" +
    "1. " + ProviderName(p) + " OAuth is enabled in your Clerk Dashboard\n" +
    "2. Sign-ups are allowed in Clerk Settings\n" +
    "3. Your environment variables are set correctly\n" +
    "4. Your domain is configured in Clerk"
  }

  /** One entry of a provider error's `errors` array. */
  datatype ErrorEntry = ErrorEntry(message: Option<string>, code: Option<string>)

  /** A value a provider call threw, in the order the handlers test for it. */
  datatype Thrown =
    | ProviderError(errors: seq<ErrorEntry>)  // an object with an `errors` property
    | PlainError(message: string)             // an `Error` without one
    | OtherValue                              // anything else

  /** `errors[0]?.message` */
  function FirstMessage(errors: seq<ErrorEntry>): Option<string> {
    if |errors| == 0 then None else errors[0].message
  }

  /** `errors[0]?.code` */
  function FirstCode(errors: seq<ErrorEntry>): Option<string> {
    if |errors| == 0 then None else errors[0].code
  }

  /** The text the email flow shows for what `signIn.create` or `setActive` threw. */
  function EmailErrorMessage(err: Thrown): (m: string)
    ensures err.ProviderError? ==>
              m == if Truthy(FirstMessage(err.errors)) then FirstMessage(err.errors).value else EmailRetryMessage
    ensures err.PlainError? ==> m == err.message
    ensures err.OtherValue? ==> m == CredentialsMessage
    ensures m == "" <==> err == PlainError("")
  {
    match err
    case ProviderError(errors) => OrElse(FirstMessage(errors), Some(EmailRetryMessage)).value
    case PlainError(message) => message
    case OtherValue => CredentialsMessage
  }

  /** How an OAuth handler reads what `authenticateWithRedirect` threw. */
  datatype OAuthVerdict = AlreadySignedIn | ShowError(message: string)

  /** `s` mentions an existing session the way the handlers look for it. */
  ghost predicate SaysAlreadySignedIn(s: string) {
    exists i :: OccursAt(s, "already signed in", i)
  }

  function ClassifyOAuthError(p: OAuthProvider, err: Thrown): (v: OAuthVerdict)
    ensures err.ProviderError? ==>
              (v.AlreadySignedIn? <==>
                 FirstCode(err.errors) == Some("session_exists") ||
                 (FirstMessage(err.errors).Some? && SaysAlreadySignedIn(FirstMessage(err.errors).value)))
    ensures err.PlainError? ==>
              (v.AlreadySignedIn? <==>
                 SaysAlreadySignedIn(err.message) || exists i :: OccursAt(err.message, "session", i))
    ensures err.OtherValue? ==> v == ShowError(OAuthConfigHint(p))
    ensures err.ProviderError? && v.ShowError? ==>
              v.message == if Truthy(FirstMessage(err.errors)) then FirstMessage(err.errors).value else OAuthRetryMessage(p)
    ensures err.PlainError? && v.ShowError? ==> v.message == AuthFailedPrefix + err.message
    ensures v.ShowError? ==> v.message != ""
  {
    match err
    case ProviderError(errors) =>
      var code := FirstCode(errors);
      var message := FirstMessage(errors);
      if code == Some("session_exists") || (message.Some? && Contains(message.value, "already signed in")) then
        AlreadySignedIn
      else
        ShowError(OrElse(message, Some(OAuthRetryMessage(p))).value)
    case PlainError(message) =>
      if Contains(message, "already signed in") || Contains(message, "session") then AlreadySignedIn
      else ShowError(AuthFailedPrefix + message)
    case OtherValue =>
      ShowError(OAuthConfigHint(p))
  }

  /** Google and Facebook read a thrown value alike; only their fallback texts name the provider. */
  lemma {:induction false} VerdictIgnoresProvider(err: Thrown)
    ensures ClassifyOAuthError(Google, err).AlreadySignedIn? == ClassifyOAuthError(Facebook, err).AlreadySignedIn?
    ensures ClassifyOAuthError(Google, err) != ClassifyOAuthError(Facebook, err) ==>
              (ClassifyOAuthError(Google, err) == ShowError(OAuthRetryMessage(Google)) &&
               ClassifyOAuthError(Facebook, err) == ShowError(OAuthRetryMessage(Facebook))) ||
              (ClassifyOAuthError(Google, err) == ShowError(OAuthConfigHint(Google)) &&
               ClassifyOAuthError(Facebook, err) == ShowError(OAuthConfigHint(Facebook)))
  {
    match err
    case ProviderError(errors) =>
    case PlainError(message) =>
    case OtherValue =>
  }

  /** Any `Error` whose message mentions "session" sends the user home with no error shown. */
  lemma {:induction false} SessionInMessageCountsAsSignedIn(p: OAuthProvider, prefix: string, suffix: string)
    ensures ClassifyOAuthError(p, PlainError(prefix + "session" + suffix)) == AlreadySignedIn
  {
    var m := prefix + "session" + suffix;
    assert m[|prefix|..|prefix| + |"session"|] == "session";
    assert OccursAt(m, "session", |prefix|);
  }

  /** A call out of the page, in the order the handlers make them. */
  datatype AuthEffect =
    | Push(path: string)
    | CreateSignIn(identifier: string, password: string)
    | SetActive(session: string)
    | AuthenticateWithRedirect(strategy: string, redirectUrl: string, redirectUrlComplete: string)
    | ReplaceUrl(url: string)
    | ScheduleSuccessReset(delayMillis: int)

  /** The identity provider's hook values: `isSignedIn`, `userId`, `isLoaded`, and whether `signIn` / `signUp` exist. */
  datatype AuthHooks = AuthHooks(isSignedIn: bool, userId: Option<string>, isLoaded: bool, hasSignIn: bool, hasSignUp: bool)

  /** How `signIn.create` settled. */
  datatype SignInAttempt = Returned(status: string, createdSessionId: Option<string>) | Threw(err: Thrown)

  /** The error text, the loading flag and the calls a handler leaves behind. */
  datatype HandlerResult = HandlerResult(error: Option<string>, loading: bool, effects: seq<AuthEffect>)

  /** The email form gets as far as `signIn.create`. */
  predicate EmailCallsProvider(hooks: AuthHooks, email: string, password: string) {
    !hooks.isSignedIn && hooks.isLoaded && hooks.hasSignIn && email != "" && password != ""
  }

  /**
   * `handleEmailSignIn` from the page's `error` and `loading`; `activation` is
   * what `setActive` threw, if anything.
   */
  function EmailSignIn(hooks: AuthHooks, email: string, password: string, attempt: SignInAttempt,
                       activation: Option<Thrown>, error: Option<string>, loading: bool): (r: HandlerResult)
    ensures hooks.isSignedIn ==> r == HandlerResult(error, loading, [Push(HomePath)])
    ensures !hooks.isSignedIn && !(hooks.isLoaded && hooks.hasSignIn) ==>
              r == HandlerResult(Some(NotReadyMessage), loading, [])
    ensures !hooks.isSignedIn && hooks.isLoaded && hooks.hasSignIn && (email == "" || password == "") ==>
              r == HandlerResult(Some(MissingFieldsMessage), loading, [])
    ensures EmailCallsProvider(hooks, email, password) ==> |r.effects| > 0 && r.effects[0] == CreateSignIn(email, password)
    ensures !EmailCallsProvider(hooks, email, password) ==> forall e :: e in r.effects ==> e == Push(HomePath)
    ensures forall e :: e in r.effects && e.SetActive? ==>
              attempt == Returned("complete", Some(e.session)) && e.session != ""
    ensures (Push(HomePath) in r.effects) <==>
              hooks.isSignedIn ||
              (EmailCallsProvider(hooks, email, password) && attempt.Returned? && attempt.status == "complete" &&
               (!Truthy(attempt.createdSessionId) || activation.None?))
    ensures EmailCallsProvider(hooks, email, password) ==>
              (Push(HomePath) in r.effects <==> r.error.None?) && (r.loading <==> r.error.None?)
    ensures EmailCallsProvider(hooks, email, password) && attempt.Returned? && attempt.status != "complete" ==>
              r.error == Some(VerificationMessage)
    ensures EmailCallsProvider(hooks, email, password) && attempt.Threw? ==>
              r.error == Some(EmailErrorMessage(attempt.err))
    ensures EmailCallsProvider(hooks, email, password) && attempt.Returned? && attempt.status == "complete" &&
            Truthy(attempt.createdSessionId) ==>
              SetActive(attempt.createdSessionId.value) in r.effects &&
              (activation.Some? ==> r.error == Some(EmailErrorMessage(activation.value)))
  {
    if hooks.isSignedIn then HandlerResult(error, loading, [Push(HomePath)])
    else if !hooks.isLoaded || !hooks.hasSignIn then HandlerResult(Some(NotReadyMessage), loading, [])
    else if email == "" || password == "" then HandlerResult(Some(MissingFieldsMessage), loading, [])
    else
      var call := [CreateSignIn(email, password)];
      match attempt
      case Threw(err) => HandlerResult(Some(EmailErrorMessage(err)), false, call)
      case Returned(status, session) =>
        if status != "complete" then HandlerResult(Some(VerificationMessage), false, call)
        else if !Truthy(session) then HandlerResult(None, true, call + [Push(HomePath)])
        else match activation
          case Some(err) => HandlerResult(Some(EmailErrorMessage(err)), false, call + [SetActive(session.value)])
          case None => HandlerResult(None, true, call + [SetActive(session.value), Push(HomePath)])
  }

  /** The OAuth handler gets as far as `authenticateWithRedirect`. */
  predicate OAuthCallsProvider(hooks: AuthHooks) {
    !hooks.isSignedIn && hooks.isLoaded && hooks.hasSignUp
  }

  /** The provider call both OAuth handlers make, with its two return addresses. */
  function RedirectCall(p: OAuthProvider, origin: string): (e: AuthEffect)
    ensures e.AuthenticateWithRedirect? && e.strategy == Strategy(p)
    ensures e.redirectUrl == origin + SsoCallbackPath && e.redirectUrlComplete == origin + HomePath
  {
    AuthenticateWithRedirect(Strategy(p), origin + SsoCallbackPath, origin + HomePath)
  }

  /**
   * `handleGoogleSignIn` / `handleFacebookSignIn`; `thrown` is what
   * `authenticateWithRedirect` threw, `None` when it went on to the provider.
   */
  function OAuthSignIn(p: OAuthProvider, hooks: AuthHooks, origin: string, thrown: Option<Thrown>,
                       error: Option<string>, loading: bool): (r: HandlerResult)
    ensures hooks.isSignedIn ==> r == HandlerResult(error, loading, [Push(HomePath)])
    ensures !hooks.isSignedIn && !hooks.isLoaded ==> r == HandlerResult(Some(NotReadyMessage), loading, [])
    ensures !hooks.isSignedIn && hooks.isLoaded && !hooks.hasSignUp ==>
              r == HandlerResult(Some(NotAvailableMessage), loading, [])
    ensures OAuthCallsProvider(hooks) ==> |r.effects| > 0 && r.effects[0] == RedirectCall(p, origin)
    ensures !OAuthCallsProvider(hooks) ==> forall e :: e in r.effects ==> e == Push(HomePath)
    ensures (Push(HomePath) in r.effects) <==>
              hooks.isSignedIn ||
              (OAuthCallsProvider(hooks) && thrown.Some? && ClassifyOAuthError(p, thrown.value).AlreadySignedIn?)
    ensures OAuthCallsProvider(hooks) ==> (r.error.None? <==> !(thrown.Some? && ClassifyOAuthError(p, thrown.value).ShowError?))
    ensures OAuthCallsProvider(hooks) ==> (r.loading <==> thrown.None?)
    ensures OAuthCallsProvider(hooks) && thrown.Some? && ClassifyOAuthError(p, thrown.value).ShowError? ==>
              r.error == Some(ClassifyOAuthError(p, thrown.value).message)
  {
    if hooks.isSignedIn then HandlerResult(error, loading, [Push(HomePath)])
    else if !hooks.isLoaded then HandlerResult(Some(NotReadyMessage), loading, [])
    else if !hooks.hasSignUp then HandlerResult(Some(NotAvailableMessage), loading, [])
    else
      var call := [RedirectCall(p, origin)];
      match thrown
      case None => HandlerResult(None, true, call)
      case Some(err) =>
        match ClassifyOAuthError(p, err)
        case AlreadySignedIn => HandlerResult(None, false, call + [Push(HomePath)])
        case ShowError(message) => HandlerResult(Some(message), false, call)
  }

  /** `searchParams.get(name)`; the map holds each parameter already percent-decoded, as `get` returns it. */
  function Param(query: map<string, string>, name: string): Option<string> {
    if name in query then Some(query[name]) else None
  }

  /** What the query-parameter effect leaves behind. */
  datatype ParamsResult = ParamsResult(success: bool, error: Option<string>, effects: seq<AuthEffect>)

  /**
   * The effect on `reset` and `error`; `decoded` is what `decodeURIComponent`
   * made of the `error` parameter, `None` when it threw (the page then keeps its state).
   */
  function ReadParams(query: map<string, string>, pathname: string, decoded: Option<string>,
                      success: bool, error: Option<string>): (r: ParamsResult)
    ensures r.success <==> success || Param(query, "reset") == Some("success")
    ensures (ScheduleSuccessReset(SuccessBannerMillis) in r.effects) <==> Param(query, "reset") == Some("success")
    ensures Truthy(Param(query, "error")) && decoded.Some? ==> r.error == decoded
    ensures !(Truthy(Param(query, "error")) && decoded.Some?) ==> r.error == error
    ensures (ReplaceUrl(pathname) in r.effects) <==> Truthy(Param(query, "error")) && decoded.Some?
    ensures forall e :: e in r.effects ==> e == ScheduleSuccessReset(SuccessBannerMillis) || e == ReplaceUrl(pathname)
  {
    var reset := Param(query, "reset") == Some("success");
    var timer := if reset then [ScheduleSuccessReset(SuccessBannerMillis)] else [];
    var shown := Truthy(Param(query, "error")) && decoded.Some?;
    ParamsResult(success || reset,
                 if shown then decoded else error,
                 timer + if shown then [ReplaceUrl(pathname)] else [])
  }

  /** Signing in with a complete result activates the new session, then goes home. */
  lemma CompleteSignInScenario(hooks: AuthHooks)
    requires !hooks.isSignedIn && hooks.isLoaded && hooks.hasSignIn
    ensures EmailSignIn(hooks, "a@b.com", "x", Returned("complete", Some("s1")), None, None, false) ==
            HandlerResult(None, true, [CreateSignIn("a@b.com", "x"), SetActive("s1"), Push(HomePath)])
  {
  }

  /** A result that is not complete keeps the visitor here with the verification message. */
  lemma NeedsVerificationScenario(hooks: AuthHooks, status: string)
    requires !hooks.isSignedIn && hooks.isLoaded && hooks.hasSignIn && status != "complete"
    ensures EmailSignIn(hooks, "a@b.com", "x", Returned(status, None), None, None, false) ==
            HandlerResult(Some(VerificationMessage), false, [CreateSignIn("a@b.com", "x")])
  {
  }

  /** The provider call a sign-in handler is suspended on. */
  datatype Awaiting = Nothing | CreateResult | Activation(session: string) | Redirect(provider: OAuthProvider)

  class SignInPage {
    var hooks: AuthHooks
    var error: Option<string>
    var loading: bool
    var success: bool
    var email: string
    var password: string
    const origin: string
    var pathname: string
    var query: map<string, string>
    var effects: seq<AuthEffect>
    var pending: Awaiting

    /** A handler suspended on the provider has set `loading`. */
    ghost predicate Valid()
      reads this`pending, this`loading
    {
      !pending.Nothing? ==> loading
    }

    constructor (hooks: AuthHooks, origin: string, pathname: string, query: map<string, string>)
      ensures this.hooks == hooks && this.origin == origin && this.pathname == pathname && this.query == query
      ensures error.None? && !loading && !success && email == "" && password == "" && effects == []
      ensures Valid() && pending.Nothing?
    {
      pending := Nothing;
      this.hooks := hooks;
      this.origin := origin;
      this.pathname := pathname;
      this.query := query;
      error, loading, success := None, false, false;
      email, password := "", "";
      effects := [];
    }

    /** The banners the page shows. */
    predicate ShowsSuccessBanner()
      reads this
    {
      success
    }

    predicate ShowsErrorBanner()
      reads this
    {
      Truthy(error)
    }

    /** The two OAuth buttons and the submit button. */
    predicate ButtonsDisabled()
      reads this
    {
      !hooks.isLoaded || loading
    }

    /** The email and password inputs. */
    predicate FieldsDisabled()
      reads this
    {
      loading
    }

    method TypeEmail(s: string)
      modifies this`email
      ensures email == s
    {
      email := s;
    }

    method TypePassword(s: string)
      modifies this`password
      ensures password == s
    {
      password := s;
    }

    method HooksChanged(hooks: AuthHooks)
      modifies this`hooks
      ensures this.hooks == hooks
    {
      this.hooks := hooks;
    }

    /** The effect that sends a signed-in visitor home. */
    method RedirectEffect()
      modifies this`effects
      ensures effects == old(effects) + if hooks.isSignedIn && Truthy(hooks.userId) then [Push(HomePath)] else []
    {
      if hooks.isSignedIn && Truthy(hooks.userId) {
        effects := effects + [Push(HomePath)];
      }
    }

    /** The effect on the query parameters; replacing the history entry drops the whole query. */
    method SearchParamsEffect(decoded: Option<string>)
      modifies this`success, this`error, this`effects, this`query
      ensures var r := ReadParams(old(query), pathname, decoded, old(success), old(error));
              success == r.success && error == r.error && effects == old(effects) + r.effects
      ensures query == if Truthy(Param(old(query), "error")) && decoded.Some? then map[] else old(query)
    {
      ghost var r := ReadParams(query, pathname, decoded, success, error);
      ghost var before := effects;
      if Param(query, "reset") == Some("success") {
        success := true;
        effects := effects + [ScheduleSuccessReset(SuccessBannerMillis)];
      }
      var oauthError := Param(query, "error");
      if Truthy(oauthError) && decoded.Some? {
        error := decoded;
        effects := effects + [ReplaceUrl(pathname)];
        query := map[];
      }
      assert effects == before + r.effects;
    }

    /** The five-second timer set by the effect above fires. */
    method SuccessTimerFired()
      modifies this`success
      ensures !ShowsSuccessBanner()
    {
      success := false;
    }

    /** `handleEmailSignIn` up to the `await` of `signIn.create`. */
    method SubmitEmail()
      requires Valid() && pending.Nothing?
      modifies this`error, this`loading, this`effects, this`pending
      ensures Valid()
      ensures EmailCallsProvider(hooks, email, password) ==>
                error.None? && loading && pending == CreateResult &&
                effects == old(effects) + [CreateSignIn(email, password)]
      ensures !EmailCallsProvider(hooks, email, password) ==>
                var r := EmailSignIn(hooks, email, password, Threw(OtherValue), None, old(error), old(loading));
                pending.Nothing? && error == r.error && loading == r.loading && effects == old(effects) + r.effects
      ensures !pending.Nothing? ==> ButtonsDisabled() && FieldsDisabled()
    {
      if hooks.isSignedIn {
        effects := effects + [Push(HomePath)];
        return;
      }
      if !hooks.isLoaded || !hooks.hasSignIn {
        error := Some(NotReadyMessage);
        return;
      }
      if email == "" || password == "" {
        error := Some(MissingFieldsMessage);
        return;
      }
      error := None;
      loading := true;
      effects := effects + [CreateSignIn(email, password)];
      pending := CreateResult;
    }

    /** `signIn.create` settles: up to the `await` of `setActive`, or to the end of the handler. */
    method CreateSettled(attempt: SignInAttempt)
      requires Valid() && pending.CreateResult?
      modifies this`error, this`loading, this`effects, this`pending
      ensures Valid()
      ensures attempt.Threw? ==>
                pending.Nothing? && !loading && error == Some(EmailErrorMessage(attempt.err)) && effects == old(effects)
      ensures attempt.Returned? && attempt.status != "complete" ==>
                pending.Nothing? && !loading && error == Some(VerificationMessage) && effects == old(effects)
      ensures attempt.Returned? && attempt.status == "complete" && Truthy(attempt.createdSessionId) ==>
                pending == Activation(attempt.createdSessionId.value) && loading && error == old(error) &&
                effects == old(effects) + [SetActive(attempt.createdSessionId.value)]
      ensures attempt.Returned? && attempt.status == "complete" && !Truthy(attempt.createdSessionId) ==>
                pending.Nothing? && loading && error == old(error) && effects == old(effects) + [Push(HomePath)]
    {
      match attempt {
        case Threw(err) =>
          loading := false;
          error := Some(EmailErrorMessage(err));
          pending := Nothing;
        case Returned(status, session) =>
          if status != "complete" {
            error := Some(VerificationMessage);
            loading := false;
            pending := Nothing;
          } else if Truthy(session) {
            effects := effects + [SetActive(session.value)];
            pending := Activation(session.value);
          } else {
            effects := effects + [Push(HomePath)];
            pending := Nothing;
          }
      }
    }

    /** `setActive` settles; `thrown` is what it threw, if anything. */
    method ActivationSettled(thrown: Option<Thrown>)
      requires Valid() && pending.Activation?
      modifies this`error, this`loading, this`effects, this`pending
      ensures Valid() && pending.Nothing?
      ensures thrown.None? ==> loading && error == old(error) && effects == old(effects) + [Push(HomePath)]
      ensures thrown.Some? ==> !loading && error == Some(EmailErrorMessage(thrown.value)) && effects == old(effects)
    {
      if thrown.Some? {
        loading := false;
        error := Some(EmailErrorMessage(thrown.value));
      } else {
        effects := effects + [Push(HomePath)];
      }
      pending := Nothing;
    }

    /** One whole run of `handleEmailSignIn`, with no other event in between. */
    method HandleEmailSignIn(attempt: SignInAttempt, activation: Option<Thrown>)
      requires Valid() && pending.Nothing?
      modifies this`error, this`loading, this`effects, this`pending
      ensures Valid() && pending.Nothing?
      ensures var r := EmailSignIn(hooks, email, password, attempt, activation, old(error), old(loading));
              error == r.error && loading == r.loading && effects == old(effects) + r.effects
    {
      SubmitEmail();
      if pending.CreateResult? {
        CreateSettled(attempt);
        if pending.Activation? {
          ActivationSettled(activation);
        }
      }
    }

    /** `handleGoogleSignIn` / `handleFacebookSignIn` up to the `await` of `authenticateWithRedirect`. */
    method StartOAuth(p: OAuthProvider)
      requires Valid() && pending.Nothing?
      modifies this`error, this`loading, this`effects, this`pending
      ensures Valid()
      ensures OAuthCallsProvider(hooks) ==>
                error.None? && loading && pending == Redirect(p) && effects == old(effects) + [RedirectCall(p, origin)]
      ensures !OAuthCallsProvider(hooks) ==>
                var r := OAuthSignIn(p, hooks, origin, None, old(error), old(loading));
                pending.Nothing? && error == r.error && loading == r.loading && effects == old(effects) + r.effects
      ensures !pending.Nothing? ==> ButtonsDisabled() && FieldsDisabled()
    {
      if hooks.isSignedIn {
        effects := effects + [Push(HomePath)];
        return;
      }
      if !hooks.isLoaded {
        error := Some(NotReadyMessage);
        return;
      }
      if !hooks.hasSignUp {
        error := Some(NotAvailableMessage);
        return;
      }
      error := None;
      loading := true;
      effects := effects + [RedirectCall(p, origin)];
      pending := Redirect(p);
    }

    /**
     * `authenticateWithRedirect` threw. When it does not throw, the browser
     * leaves the page for the provider and the handler never resumes.
     */
    method RedirectFailed(err: Thrown)
      requires Valid() && pending.Redirect?
      modifies this`error, this`loading, this`effects, this`pending
      ensures Valid() && pending.Nothing? && !loading
      ensures var v := ClassifyOAuthError(old(pending).provider, err);
              (v.AlreadySignedIn? ==> error == old(error) && effects == old(effects) + [Push(HomePath)]) &&
              (v.ShowError? ==> error == Some(v.message) && effects == old(effects))
    {
      loading := false;
      match ClassifyOAuthError(pending.provider, err) {
        case AlreadySignedIn =>
          effects := effects + [Push(HomePath)];
        case ShowError(message) =>
          error := Some(message);
      }
      pending := Nothing;
    }

    /** One whole click on an OAuth button, with no other event in between. */
    method HandleOAuthSignIn(p: OAuthProvider, thrown: Option<Thrown>)
      requires Valid() && pending.Nothing?
      modifies this`error, this`loading, this`effects, this`pending
      ensures Valid()
      ensures pending == if OAuthCallsProvider(hooks) && thrown.None? then Redirect(p) else Nothing
      ensures var r := OAuthSignIn(p, hooks, origin, thrown, old(error), old(loading));
              error == r.error && loading == r.loading && effects == old(effects) + r.effects
      ensures OAuthCallsProvider(hooks) ==>
                (ShowsErrorBanner() <==> thrown.Some? && ClassifyOAuthError(p, thrown.value).ShowError?)
    {
      StartOAuth(p);
      if pending.Redirect? && thrown.Some? {
        RedirectFailed(thrown.value);
      }
    }
  }

  /** `?reset=success`: the banner shows at once and is gone once the timer fires. */
  method ResetBannerScenario(hooks: AuthHooks) returns (shownAtLoad: bool, shownAfterTimer: bool)
    ensures shownAtLoad && !shownAfterTimer
  {
    var page := new SignInPage(hooks, "https://rentany.example", "/auth/signin", map["reset" := "success"]);
    page.SearchParamsEffect(None);
    shownAtLoad := page.ShowsSuccessBanner();
    page.SuccessTimerFired();
    shownAfterTimer := page.ShowsSuccessBanner();
  }

  /**
   * `?error=Invalid%20credentials`: the decoded text is shown and the parameter
   * leaves the address bar. The query map holds what `searchParams.get` returns,
   * which is already percent-decoded; decoding "Invalid credentials" again leaves it as it is.
   */
  method ErrorParamScenario(hooks: AuthHooks) returns (shown: Option<string>, paramStays: bool)
    ensures shown == Some("Invalid credentials") && !paramStays
  {
    var page := new SignInPage(hooks, "https://rentany.example", "/auth/signin", map["error" := "Invalid credentials"]);
    page.SearchParamsEffect(Some("Invalid credentials"));
    shown := page.error;
    paramStays := "error" in page.query;
  }
}
