/**
 * The decisions the class-based views make: where login and logout send the
 * browser, the test-cookie protocol, the options handed to the reset-email
 * form, and the reset-link gate. Rendering and the framework's own handlers are
 * reduced to a `Response` value.
 */
module Views {
  import opened Wrappers
  import opened Http
  import Utils

  /** The templates a view renders, with the context flags the model tracks. */
  datatype Page =
    | LoginForm
    | LoggedOutPage
    | ResetConfirmPage(validlink: bool, hasForm: bool)

  /**
   * The exceptions a view raises: the `KeyError` of an admin-site reset request
   * without an `HTTP_HOST` header, and the `AttributeError` of the logout page,
   * whose context calls a `get_success_url` the view does not define.
   */
  datatype ViewError = MissingHttpHost | MissingGetSuccessUrl

  /**
   * What a view hands back: a redirect, a rendered page, the answer to OPTIONS
   * listing the verbs the view handles, or 405 for a verb it has no handler for.
   */
  datatype Response = Redirect(location: string) | Render(page: Page) | AllowedVerbs | MethodNotAllowed

  /** True when the URL names no other host than `host` (the views' own host check). */
  predicate SameHost(parse: string -> Url, url: string, host: string) {
    var netloc := parse(url).netloc;
    netloc == "" || netloc == host
  }

  /** The scheme check of `ensure_safe_url` with the default allow-list. */
  predicate SafeScheme(parse: string -> Url, url: string) {
    Utils.SchemeAllowed(parse(url), Utils.DefaultProtocols)
  }

  // ---------------------------------------------------------------------------
  // LoginView

  /** `success_url`, `redirect_field_name` and the `LOGIN_REDIRECT_URL` setting. */
  datatype LoginConfig = LoginConfig(successUrl: Option<string>, redirectFieldName: string, loginRedirectUrl: string)

  /** The target `get_success_url` considers: the configured URL, else the request parameter, else empty. */
  function LoginCandidate(cfg: LoginConfig, req: Request): string {
    if Truthy(cfg.successUrl) then cfg.successUrl.value else Lookup(req.params, cfg.redirectFieldName).GetOr("")
  }

  /** `LoginView.get_success_url` as written: the candidate unless it is empty or names another host. */
  function LoginSuccessUrl(cfg: LoginConfig, req: Request, parse: string -> Url): (r: string)
    ensures r == cfg.loginRedirectUrl || r == LoginCandidate(cfg, req)
    ensures r != cfg.loginRedirectUrl ==> r != "" && SameHost(parse, r, req.host)
    ensures LoginCandidate(cfg, req) != "" && SameHost(parse, LoginCandidate(cfg, req), req.host) ==> r == LoginCandidate(cfg, req)
  {
    var redirectTo := LoginCandidate(cfg, req);
    var netloc := parse(redirectTo).netloc;
    if redirectTo == "" || (netloc != "" && netloc != req.host) then cfg.loginRedirectUrl else redirectTo
  }

  /** `get_success_url` with the scheme allow-list of `ensure_safe_url` added to the host check. */
  function LoginSuccessUrlChecked(cfg: LoginConfig, req: Request, parse: string -> Url): (r: string)
    ensures r == cfg.loginRedirectUrl || r == LoginCandidate(cfg, req)
    ensures r != cfg.loginRedirectUrl ==> r != "" && SameHost(parse, r, req.host) && SafeScheme(parse, r)
    ensures SafeScheme(parse, LoginCandidate(cfg, req)) ==> r == LoginSuccessUrl(cfg, req, parse)
    ensures !SafeScheme(parse, LoginCandidate(cfg, req)) ==> r == cfg.loginRedirectUrl
  {
    var redirectTo := LoginCandidate(cfg, req);
    if SafeScheme(parse, redirectTo) then LoginSuccessUrl(cfg, req, parse) else cfg.loginRedirectUrl
  }

  /** The configured `success_url` takes precedence over the request parameter. */
  lemma ConfiguredSuccessUrlPreferred(cfg: LoginConfig, req: Request, parse: string -> Url)
    requires Truthy(cfg.successUrl)
    requires SameHost(parse, cfg.successUrl.value, req.host)
    ensures LoginSuccessUrl(cfg, req, parse) == cfg.successUrl.value
  {
  }

  /**
   * The as-written check lets an `ftp:` URL with no host through, although
   * `ensure_safe_url` rejects it; the corrected one falls back.
   */
  lemma LoginSuccessUrlAdmitsForeignScheme(cfg: LoginConfig, req: Request, parse: string -> Url)
    requires !Truthy(cfg.successUrl)
    requires Lookup(req.params, cfg.redirectFieldName) == Some("ftp:///x")
    requires parse("ftp:///x") == Url("ftp", "", "/x")
    ensures LoginSuccessUrl(cfg, req, parse) == "ftp:///x"
    ensures !Utils.IsSafe(parse("ftp:///x"), None, Some(req.host))
    ensures LoginSuccessUrlChecked(cfg, req, parse) == cfg.loginRedirectUrl
  {
  }

  /** `set_test_cookie`: the marker is placed, nothing else changes. */
  function SetTestCookie(s: Session): (s': Session)
    ensures s'.testCookie
    ensures s'.values == s.values && s'.user == s.user
  {
    s.(testCookie := true)
  }

  /** `check_and_delete_test_cookie`: whether the marker came back, and the session with it removed in that case only. */
  function CheckAndDeleteTestCookie(s: Session): (r: (bool, Session))
    ensures r.0 <==> s.testCookie
    ensures !r.1.testCookie
    ensures r.1.values == s.values && r.1.user == s.user
  {
    if s.testCookie then (true, s.(testCookie := false)) else (false, s)
  }

  /** A marker set on one response and returned is reported once, then gone. */
  lemma TestCookieRoundTrip(s: Session)
    ensures CheckAndDeleteTestCookie(SetTestCookie(s)) == (true, s.(testCookie := false))
    ensures CheckAndDeleteTestCookie(CheckAndDeleteTestCookie(s).1) == (false, CheckAndDeleteTestCookie(s).1)
  {
  }

  /** `LoginView.get`: set the test cookie and show the form. */
  function LoginGet(req: Request): (r: (Session, Response))
    requires req.session.Some?
    ensures r.0.testCookie
    ensures r.0.values == req.session.value.values && r.0.user == req.session.value.user
    ensures r.1 == Render(LoginForm)
  {
    (SetTestCookie(req.session.value), Render(LoginForm))
  }

  /** The marker the form page sets is what the next submission's check reports. */
  lemma LoginGetThenCheck(req: Request)
    requires req.session.Some?
    ensures CheckAndDeleteTestCookie(LoginGet(req).0).0
    ensures CheckAndDeleteTestCookie(LoginGet(req).0).1 == req.session.value.(testCookie := false)
  {
  }

  /**
   * Django's `login`: a session that belongs to a different user is flushed
   * first; otherwise the session keeps its contents and records the user.
   */
  function LogIn(s: Session, user: User): (s': Session)
    ensures s'.user == Some(user)
    ensures s.user.Some? && s.user.value.id != user.id ==> s'.values == map[] && !s'.testCookie
    ensures !(s.user.Some? && s.user.value.id != user.id) ==> s'.values == s.values && s'.testCookie == s.testCookie
  {
    if s.user.Some? && s.user.value.id != user.id then Session(map[], false, Some(user))
    else s.(user := Some(user))
  }

  /** The login submission, redirecting a successful login to `successUrl`. */
  function LoginSubmit(req: Request, form: Option<User>, successUrl: string): (Session, Response)
    requires req.session.Some?
  {
    var s := CheckAndDeleteTestCookie(req.session.value).1;
    match form
    case Some(user) => (LogIn(s, user), Redirect(successUrl))
    case None => (SetTestCookie(s), Render(LoginForm))
  }

  /**
   * `LoginView.post` as written, with the authentication form's verdict `form`
   * (the user on success): check and drop the test cookie, then log in and
   * redirect to `get_success_url`, or set the test cookie again and re-render.
   */
  function LoginPost(cfg: LoginConfig, req: Request, parse: string -> Url, form: Option<User>): (r: (Session, Response))
    requires req.session.Some?
    ensures r.1.Redirect? <==> form.Some?
    ensures form.Some? ==> r.0.user == form && !r.0.testCookie
    ensures form.Some? ==> r.1.location == LoginSuccessUrl(cfg, req, parse)
    ensures form.Some? && req.session.value.user.Some? && req.session.value.user.value.id != form.value.id ==>
      r.0.values == map[]
    ensures form.Some? && !(req.session.value.user.Some? && req.session.value.user.value.id != form.value.id) ==>
      r.0.values == req.session.value.values
    ensures form.None? ==>
      && r.0.testCookie
      && r.0.values == req.session.value.values
      && r.0.user == req.session.value.user
      && r.1 == Render(LoginForm)
  {
    LoginSubmit(req, form, LoginSuccessUrl(cfg, req, parse))
  }

  /** `LoginView.post` redirecting through the corrected success URL; the session ends as in the as-written flow. */
  function LoginPostChecked(cfg: LoginConfig, req: Request, parse: string -> Url, form: Option<User>): (r: (Session, Response))
    requires req.session.Some?
    ensures r.0 == LoginPost(cfg, req, parse, form).0
    ensures r.1.Redirect? <==> form.Some?
    ensures form.None? ==> r.1 == Render(LoginForm)
    ensures form.Some? ==> r.1.location == cfg.loginRedirectUrl || Utils.IsSafe(parse(r.1.location), None, Some(req.host))
    ensures form.Some? && SafeScheme(parse, LoginCandidate(cfg, req)) ==> r == LoginPost(cfg, req, parse, form)
  {
    LoginSubmit(req, form, LoginSuccessUrlChecked(cfg, req, parse))
  }

  /** The test-cookie check is informational: whether the cookie came back changes neither the response nor the resulting session. */
  lemma TestCookieIsInformational(cfg: LoginConfig, req: Request, parse: string -> Url, form: Option<User>, cookie: bool)
    requires req.session.Some?
    ensures var other := req.(session := Some(req.session.value.(testCookie := cookie)));
      LoginPost(cfg, other, parse, form).1 == LoginPost(cfg, req, parse, form).1 &&
      LoginPost(cfg, other, parse, form).0 == LoginPost(cfg, req, parse, form).0
  {
  }

  /** After a successful login the browser goes to the configured default or to a non-empty URL naming no other host. */
  lemma LoginRedirectStaysOnHost(cfg: LoginConfig, req: Request, parse: string -> Url, user: User)
    requires req.session.Some?
    ensures var url := LoginPost(cfg, req, parse, Some(user)).1.location;
      url == cfg.loginRedirectUrl || (url != "" && SameHost(parse, url, req.host))
  {
  }

  // ---------------------------------------------------------------------------
  // LogoutView

  /** `next_page` and `redirect_field_name`. */
  datatype LogoutConfig = LogoutConfig(nextPage: Option<string>, redirectFieldName: string)

  /** The session after `logout`: flushed, with nobody logged in. */
  const FlushedSession: Session := Session(map[], false, None)

  /** The parameter logout may redirect to: non-empty and naming no other host. */
  predicate UsableLogoutTarget(parse: string -> Url, param: string, host: string) {
    param != "" && SameHost(parse, param, host)
  }

  /**
   * `LogoutView.get` as written: log out, then redirect to the parameter if it
   * names no other host, else to `next_page`. Otherwise the page would be
   * rendered, but the page's context calls a `get_success_url` the view does
   * not have, so the request fails; the session has been flushed by then.
   */
  function LogoutGet(cfg: LogoutConfig, req: Request, parse: string -> Url): (r: (Session, Result<Response, ViewError>))
    requires req.session.Some?
    ensures r.0 == FlushedSession
    ensures r.1.Success? ==> r.1.value.Redirect?
    ensures var param := Lookup(req.params, cfg.redirectFieldName).GetOr("");
      UsableLogoutTarget(parse, param, req.host) ==> r.1 == Success(Redirect(param))
    ensures var param := Lookup(req.params, cfg.redirectFieldName).GetOr("");
      !UsableLogoutTarget(parse, param, req.host) && Truthy(cfg.nextPage) ==> r.1 == Success(Redirect(cfg.nextPage.value))
    ensures r.1.Failure? <==>
      !UsableLogoutTarget(parse, Lookup(req.params, cfg.redirectFieldName).GetOr(""), req.host) && !Truthy(cfg.nextPage)
    ensures r.1.Failure? ==> r.1.error == MissingGetSuccessUrl
  {
    var s := FlushedSession;
    var redirectTo := Lookup(req.params, cfg.redirectFieldName).GetOr("");
    if redirectTo != "" && !(parse(redirectTo).netloc != "" && parse(redirectTo).netloc != req.host) then
      (s, Success(Redirect(redirectTo)))
    else if Truthy(cfg.nextPage) then
      (s, Success(Redirect(cfg.nextPage.value)))
    else
      (s, Failure(MissingGetSuccessUrl))
  }

  /** Where logout goes without a usable parameter: `next_page` if set, else the logged-out page. */
  function NoTargetResponse(cfg: LogoutConfig): Response {
    if Truthy(cfg.nextPage) then Redirect(cfg.nextPage.value) else Render(LoggedOutPage)
  }

  /**
   * `LogoutView.get` corrected: the parameter must also have an allowed scheme,
   * and with no target at all the logged-out page is rendered.
   */
  function LogoutGetChecked(cfg: LogoutConfig, req: Request, parse: string -> Url): (r: (Session, Response))
    requires req.session.Some?
    ensures r.0 == FlushedSession
    ensures var param := Lookup(req.params, cfg.redirectFieldName).GetOr("");
      UsableLogoutTarget(parse, param, req.host) && SafeScheme(parse, param) ==> r.1 == Redirect(param)
    ensures var param := Lookup(req.params, cfg.redirectFieldName).GetOr("");
      !(UsableLogoutTarget(parse, param, req.host) && SafeScheme(parse, param)) ==> r.1 == NoTargetResponse(cfg)
    ensures var param := Lookup(req.params, cfg.redirectFieldName).GetOr("");
      SafeScheme(parse, param) && LogoutGet(cfg, req, parse).1.Success? ==> r.1 == LogoutGet(cfg, req, parse).1.value
    ensures LogoutGet(cfg, req, parse).1.Failure? ==> r.1 == Render(LoggedOutPage)
  {
    var redirectTo := Lookup(req.params, cfg.redirectFieldName).GetOr("");
    var response :=
      if UsableLogoutTarget(parse, redirectTo, req.host) && SafeScheme(parse, redirectTo) then Redirect(redirectTo)
      else NoTargetResponse(cfg);
    (FlushedSession, response)
  }

  /**
   * The as-written check redirects to an `ftp:` URL with no host, although
   * `ensure_safe_url` rejects it; the corrected one ignores it.
   */
  lemma LogoutAdmitsForeignScheme(cfg: LogoutConfig, req: Request, parse: string -> Url)
    requires req.session.Some?
    requires Lookup(req.params, cfg.redirectFieldName) == Some("ftp:///x")
    requires parse("ftp:///x") == Url("ftp", "", "/x")
    ensures LogoutGet(cfg, req, parse) == (FlushedSession, Success(Redirect("ftp:///x")))
    ensures !Utils.IsSafe(parse("ftp:///x"), None, Some(req.host))
    ensures LogoutGetChecked(cfg, req, parse).1 == NoTargetResponse(cfg)
  {
  }

  /**
   * With no parameter and no `next_page`, the as-written view logs the user out
   * and then fails; the corrected one logs out and shows the logged-out page.
   */
  lemma LogoutPageFails(cfg: LogoutConfig, req: Request, parse: string -> Url)
    requires req.session.Some?
    requires cfg.redirectFieldName !in req.params
    requires cfg.nextPage.None?
    ensures LogoutGet(cfg, req, parse) == (FlushedSession, Failure(MissingGetSuccessUrl))
    ensures LogoutGetChecked(cfg, req, parse) == (FlushedSession, Render(LoggedOutPage))
  {
  }

  /**
   * `LogoutView` dispatch. The view defines only `get`; HEAD runs it too,
   * OPTIONS is answered by the framework, and any other verb is refused. Only
   * GET and HEAD log out.
   */
  function Logout(cfg: LogoutConfig, req: Request, verb: Method, parse: string -> Url): (r: (Session, Result<Response, ViewError>))
    requires req.session.Some?
    ensures verb == Get || verb == Head ==> r.0 == FlushedSession
    ensures (verb == Get || verb == Head) && r.1.Success? ==> r.1.value.Redirect?
    ensures verb == Get || verb == Head ==> (r.1.Failure? <==>
      !UsableLogoutTarget(parse, Lookup(req.params, cfg.redirectFieldName).GetOr(""), req.host) && !Truthy(cfg.nextPage))
    ensures verb == Options ==> r == (req.session.value, Success(AllowedVerbs))
    ensures verb != Get && verb != Head && verb != Options ==> r == (req.session.value, Success(MethodNotAllowed))
  {
    match verb
    case Get | Head => LogoutGet(cfg, req, parse)
    case Options => (req.session.value, Success(AllowedVerbs))
    case _ => (req.session.value, Success(MethodNotAllowed))
  }

  /** Every redirect logout issues goes to the request parameter or to `next_page`. */
  lemma LogoutRedirectTargets(cfg: LogoutConfig, req: Request, verb: Method, parse: string -> Url)
    requires req.session.Some?
    ensures var r := Logout(cfg, req, verb, parse).1;
      r.Success? && r.value.Redirect? ==>
        Lookup(req.params, cfg.redirectFieldName) == Some(r.value.location) || cfg.nextPage == Some(r.value.location)
  {
  }

  // ---------------------------------------------------------------------------
  // PasswordResetView

  /** `email_template_name`, `is_admin_site`, `token_generator`, `from_email` and `post_reset_redirect`. */
  datatype ResetConfig<G> = ResetConfig(
    emailTemplateName: string,
    isAdminSite: bool,
    tokenGenerator: G,
    fromEmail: Option<string>,
    postResetRedirect: string)

  /** The keyword arguments passed to the reset form's `save`. */
  datatype SaveOptions<G> = SaveOptions(
    useHttps: bool,
    tokenGenerator: G,
    fromEmail: Option<string>,
    emailTemplateName: string,
    request: Request,
    domainOverride: Option<string>)

  const HttpHostKey: string := "HTTP_HOST"

  /** `PasswordResetView.form_valid`: the options for `form.save` and the redirect that follows. */
  function ResetFormValid<G(==)>(cfg: ResetConfig<G>, req: Request): (r: Result<(SaveOptions<G>, Response), ViewError>)
    ensures r.Failure? <==> cfg.isAdminSite && HttpHostKey !in req.meta
    ensures r.Success? ==>
      var opts := r.value.0;
      && opts.useHttps == req.secure
      && opts.tokenGenerator == cfg.tokenGenerator
      && opts.fromEmail == cfg.fromEmail
      && opts.emailTemplateName == cfg.emailTemplateName
      && opts.request == req
      && (opts.domainOverride.Some? <==> cfg.isAdminSite)
      && (cfg.isAdminSite ==> opts.domainOverride == Some(req.meta[HttpHostKey]))
      && r.value.1 == Redirect(cfg.postResetRedirect)
  {
    var opts := SaveOptions(req.secure, cfg.tokenGenerator, cfg.fromEmail, cfg.emailTemplateName, req, None);
    if cfg.isAdminSite then
      if HttpHostKey in req.meta then Success((opts.(domainOverride := Some(req.meta[HttpHostKey])), Redirect(cfg.postResetRedirect)))
      else Failure(MissingHttpHost)
    else
      Success((opts, Redirect(cfg.postResetRedirect)))
  }

  /** The admin-site flag only adds `domain_override`; the other five options are the same either way. */
  lemma AdminSiteOnlyAddsDomain<G>(cfg: ResetConfig<G>, req: Request)
    requires HttpHostKey in req.meta
    ensures ResetFormValid(cfg.(isAdminSite := true), req).Success?
    ensures ResetFormValid(cfg.(isAdminSite := true), req).value.0 ==
      ResetFormValid(cfg.(isAdminSite := false), req).value.0.(domainOverride := Some(req.meta[HttpHostKey]))
  {
  }

  // ---------------------------------------------------------------------------
  // PasswordResetConfirmView

  /**
   * The framework services the reset link is checked against: `base36_to_int`
   * (absent on `ValueError`), the user lookup by id (absent on `DoesNotExist`)
   * and the token generator's `check_token`.
   */
  datatype Auth = Auth(
    base36ToInt: string -> Option<int>,
    lookupUser: int -> Option<User>,
    checkToken: (User, string) -> bool)

  /** The `user` and `validlink` attributes `check_link` leaves behind. */
  datatype LinkCheck = LinkCheck(user: Option<User>, validlink: bool)

  /** The user the encoded id names, if it decodes and exists. */
  function ResolveUser(auth: Auth, uidb36: string): Option<User> {
    match auth.base36ToInt(uidb36)
    case None => None
    case Some(id) => auth.lookupUser(id)
  }

  /** `check_link`: decode, look up, check the token; a failed decode or lookup leaves no user and an invalid link. */
  function CheckLink(auth: Auth, uidb36: string, token: string): (r: LinkCheck)
    ensures r.validlink <==>
      && auth.base36ToInt(uidb36).Some?
      && auth.lookupUser(auth.base36ToInt(uidb36).value).Some?
      && auth.checkToken(auth.lookupUser(auth.base36ToInt(uidb36).value).value, token)
    ensures r.user.None? <==> auth.base36ToInt(uidb36).None? || auth.lookupUser(auth.base36ToInt(uidb36).value).None?
    ensures r.user.Some? ==> r.user == auth.lookupUser(auth.base36ToInt(uidb36).value)
    ensures r.validlink ==> r.user.Some?
  {
    var user := ResolveUser(auth, uidb36);
    LinkCheck(user, user.Some? && auth.checkToken(user.value, token))
  }

  /** An id that does not decode, or names no user, gives an invalid link and no user. */
  lemma BadIdIsInvalid(auth: Auth, uidb36: string, token: string)
    requires auth.base36ToInt(uidb36).None? || auth.lookupUser(auth.base36ToInt(uidb36).value).None?
    ensures CheckLink(auth, uidb36, token) == LinkCheck(None, false)
  {
  }

  /** For an existing user, the link is valid exactly when the token checks; changing the token to one that fails makes it invalid. */
  lemma TokenDecides(auth: Auth, uidb36: string, token: string, altered: string)
    requires auth.base36ToInt(uidb36).Some?
    requires auth.lookupUser(auth.base36ToInt(uidb36).value).Some?
    requires !auth.checkToken(auth.lookupUser(auth.base36ToInt(uidb36).value).value, altered)
    ensures var user := auth.lookupUser(auth.base36ToInt(uidb36).value);
      CheckLink(auth, uidb36, token) == LinkCheck(user, auth.checkToken(user.value, token))
    ensures !CheckLink(auth, uidb36, altered).validlink
  {
  }

  /**
   * `PasswordResetConfirmView.dispatch` and the form flow behind it. HEAD runs
   * as GET and OPTIONS gets the framework's answer. A POST, or a PUT (which the
   * form view treats as a POST), carries the set-password form's verdict
   * `formValid`. The second component is the user whose new password
   * `form.save` stores, if any.
   */
  function ResetConfirm(auth: Auth, uidb36: string, token: string, verb: Method, formValid: bool, postResetRedirect: string): (r: (Response, Option<User>))
    ensures var link := CheckLink(auth, uidb36, token);
      !link.validlink ==> r == (Render(ResetConfirmPage(false, false)), None)
    ensures r.1.Some? ==> CheckLink(auth, uidb36, token) == LinkCheck(r.1, true)
    ensures r.1.Some? <==> CheckLink(auth, uidb36, token).validlink && (verb == Post || verb == Put) && formValid
    ensures r.1.Some? ==> r.0 == Redirect(postResetRedirect)
    ensures r.0.Render? ==> r.0.page.ResetConfirmPage? && r.0.page.validlink == CheckLink(auth, uidb36, token).validlink
    ensures CheckLink(auth, uidb36, token).validlink && (verb == Get || verb == Head || ((verb == Post || verb == Put) && !formValid)) ==>
      r == (Render(ResetConfirmPage(true, true)), None)
    ensures CheckLink(auth, uidb36, token).validlink && verb == Options ==> r == (AllowedVerbs, None)
    ensures CheckLink(auth, uidb36, token).validlink && verb == OtherMethod ==> r == (MethodNotAllowed, None)
  {
    var link := CheckLink(auth, uidb36, token);
    if !link.validlink then (Render(ResetConfirmPage(false, false)), None)
    else
      match verb
      case Get | Head => (Render(ResetConfirmPage(true, true)), None)
      case Post | Put => if formValid then (Redirect(postResetRedirect), link.user) else (Render(ResetConfirmPage(true, true)), None)
      case Options => (AllowedVerbs, None)
      case OtherMethod => (MethodNotAllowed, None)
  }
}
