/**
 * Redirect-target safety: the scheme allow-list and host check of
 * `ensure_safe_url`, and the candidate selection of `default_redirect`.
 */
module Utils {
  import opened Wrappers
  import opened Http

  /** The `SuspiciousOperation` strict mode raises, by the check that failed. */
  datatype Suspicious = UnsafeProtocol(scheme: string) | UnsafeHost(allowedHost: string)

  /** The schemes allowed when the caller passes no allow-list. */
  const DefaultProtocols: seq<string> := ["http", "https"]

  /** The request parameter `default_redirect` reads unless told otherwise. */
  const DefaultFieldName: string := "next"

  /** The session key `default_redirect` reads unless told otherwise. */
  const DefaultSessionKey: string := "redirect_to"

  /** The allow-list in force: the caller's, or the default when the caller passed none. */
  function AllowList(allowedProtocols: Option<seq<string>>): seq<string> {
    allowedProtocols.GetOr(DefaultProtocols)
  }

  /** The scheme check: no scheme at all, or one on the list. */
  predicate SchemeAllowed(url: Url, protocols: seq<string>) {
    url.scheme == "" || url.scheme in protocols
  }

  /** The host check: off when no host is given, passed by a URL with no network location. */
  predicate HostMatches(url: Url, allowedHost: Option<string>) {
    !Truthy(allowedHost) || url.netloc == "" || url.netloc == allowedHost.value
  }

  /** Both checks together: what the query mode of `ensure_safe_url` answers. */
  predicate IsSafe(url: Url, allowedProtocols: Option<seq<string>>, allowedHost: Option<string>) {
    SchemeAllowed(url, AllowList(allowedProtocols)) && HostMatches(url, allowedHost)
  }

  /**
   * `ensure_safe_url`. In query mode the answer is a boolean; in strict mode
   * (`raiseOnFail`) a failed check is an exception instead, the scheme check
   * being made first.
   */
  function EnsureSafeUrl(url: Url, allowedProtocols: Option<seq<string>>, allowedHost: Option<string>, raiseOnFail: bool): (r: Result<bool, Suspicious>)
    ensures r.Success? ==> (r.value <==> IsSafe(url, allowedProtocols, allowedHost))
    ensures !raiseOnFail ==> r.Success?
    ensures raiseOnFail ==> (r.Success? <==> IsSafe(url, allowedProtocols, allowedHost))
    ensures raiseOnFail && !SchemeAllowed(url, AllowList(allowedProtocols)) ==> r == Failure(UnsafeProtocol(url.scheme))
    ensures raiseOnFail && SchemeAllowed(url, AllowList(allowedProtocols)) && !HostMatches(url, allowedHost) ==>
      r == Failure(UnsafeHost(allowedHost.value))
  {
    var protocols := AllowList(allowedProtocols);
    var badScheme := url.scheme != "" && url.scheme !in protocols;
    if badScheme && raiseOnFail then Failure(UnsafeProtocol(url.scheme))
    else
      var badHost := Truthy(allowedHost) && url.netloc != "" && url.netloc != allowedHost.value;
      if badHost && raiseOnFail then Failure(UnsafeHost(allowedHost.value))
      else Success(!badScheme && !badHost)
  }

  /** With no allow-list given, exactly the empty scheme, `http` and `https` pass the scheme check. */
  lemma DefaultAllowList(url: Url)
    ensures SchemeAllowed(url, AllowList(None)) <==> url.scheme == "" || url.scheme == "http" || url.scheme == "https"
  {
  }

  /** A URL with no scheme and no network location is safe under any allow-list and host, in both modes. */
  lemma RelativeUrlIsSafe(url: Url, allowedProtocols: Option<seq<string>>, allowedHost: Option<string>, raiseOnFail: bool)
    requires url.scheme == "" && url.netloc == ""
    ensures EnsureSafeUrl(url, allowedProtocols, allowedHost, raiseOnFail) == Success(true)
  {
  }

  /** A scheme outside the allow-list is unsafe, and strict mode reports the scheme whatever the host. */
  lemma ForeignSchemeIsUnsafe(url: Url, allowedProtocols: Option<seq<string>>, allowedHost: Option<string>)
    requires url.scheme != "" && url.scheme !in AllowList(allowedProtocols)
    ensures EnsureSafeUrl(url, allowedProtocols, allowedHost, false) == Success(false)
    ensures EnsureSafeUrl(url, allowedProtocols, allowedHost, true) == Failure(UnsafeProtocol(url.scheme))
  {
  }

  /** A network location other than the given host is unsafe; with no host, or no network location, the host check never fails. */
  lemma ForeignHostIsUnsafe(url: Url, allowedProtocols: Option<seq<string>>, host: string)
    ensures host != "" && url.netloc != "" && url.netloc != host ==>
      EnsureSafeUrl(url, allowedProtocols, Some(host), false) == Success(false)
    ensures url.netloc == "" || host == "" ==>
      EnsureSafeUrl(url, allowedProtocols, Some(host), false) == EnsureSafeUrl(url, allowedProtocols, None, false)
  {
  }

  /** Strict mode raises exactly when query mode answers false, and otherwise answers true. */
  lemma StrictModeAgreesWithQuery(url: Url, allowedProtocols: Option<seq<string>>, allowedHost: Option<string>)
    ensures EnsureSafeUrl(url, allowedProtocols, allowedHost, true).Failure? <==>
      EnsureSafeUrl(url, allowedProtocols, allowedHost, false) == Success(false)
    ensures EnsureSafeUrl(url, allowedProtocols, allowedHost, true).Success? ==>
      EnsureSafeUrl(url, allowedProtocols, allowedHost, true) == Success(true)
  {
  }

  // ---------------------------------------------------------------------------
  // default_redirect

  /** The keyword arguments of `default_redirect`; `None` means "not passed". */
  datatype RedirectOptions = RedirectOptions(
    redirectFieldName: Option<string>,
    sessionKeyValue: Option<string>,
    allowedProtocols: Option<seq<string>>)

  /** The redirect target the client asked for: the request parameter, else the session value. */
  function RequestedTarget(req: Request, opts: RedirectOptions): Option<string> {
    var param := Lookup(req.params, opts.redirectFieldName.GetOr(DefaultFieldName));
    if !Truthy(param) && req.session.Some? then
      Lookup(req.session.value.values, opts.sessionKeyValue.GetOr(DefaultSessionKey))
    else
      param
  }

  /** `is_safe` in `default_redirect`: the URL checked against the request's own host. */
  function CheckAgainstRequest(req: Request, parse: string -> Url, opts: RedirectOptions, url: string, raiseOnFail: bool): Result<bool, Suspicious> {
    EnsureSafeUrl(parse(url), opts.allowedProtocols, Some(req.host), raiseOnFail)
  }

  /**
   * `default_redirect`: the requested target when it is non-empty and safe,
   * else the fallback; the final strict check raises only for an unsafe fallback.
   */
  function DefaultRedirect(req: Request, parse: string -> Url, fallbackUrl: string, opts: RedirectOptions): (r: Result<string, Suspicious>)
    ensures r.Success? ==> IsSafe(parse(r.value), opts.allowedProtocols, Some(req.host))
    ensures var next := RequestedTarget(req, opts);
      Truthy(next) && IsSafe(parse(next.value), opts.allowedProtocols, Some(req.host)) ==> r == Success(next.value)
    ensures var next := RequestedTarget(req, opts);
      !(Truthy(next) && IsSafe(parse(next.value), opts.allowedProtocols, Some(req.host))) ==>
        (r.Success? <==> IsSafe(parse(fallbackUrl), opts.allowedProtocols, Some(req.host))) &&
        (r.Success? ==> r.value == fallbackUrl)
    ensures r.Failure? ==> CheckAgainstRequest(req, parse, opts, fallbackUrl, true) == Failure(r.error)
  {
    var next := RequestedTarget(req, opts);
    var redirectTo := if Truthy(next) && CheckAgainstRequest(req, parse, opts, next.value, false).value then next.value else fallbackUrl;
    var _ :- CheckAgainstRequest(req, parse, opts, redirectTo, true);
    Success(redirectTo)
  }

  /** A non-empty, safe request parameter wins, whatever the session holds. */
  lemma ParameterPreferred(req: Request, parse: string -> Url, fallbackUrl: string, opts: RedirectOptions, session: Option<Session>)
    requires var param := Lookup(req.params, opts.redirectFieldName.GetOr(DefaultFieldName));
      Truthy(param) && IsSafe(parse(param.value), opts.allowedProtocols, Some(req.host))
    ensures DefaultRedirect(req, parse, fallbackUrl, opts) == Success(Lookup(req.params, opts.redirectFieldName.GetOr(DefaultFieldName)).value)
    ensures DefaultRedirect(req.(session := session), parse, fallbackUrl, opts) == DefaultRedirect(req, parse, fallbackUrl, opts)
  {
  }

  /** With the parameter missing or empty, a non-empty, safe session value is used. */
  lemma SessionUsedWithoutParameter(req: Request, parse: string -> Url, fallbackUrl: string, opts: RedirectOptions)
    requires !Truthy(Lookup(req.params, opts.redirectFieldName.GetOr(DefaultFieldName)))
    requires req.session.Some?
    requires var stored := Lookup(req.session.value.values, opts.sessionKeyValue.GetOr(DefaultSessionKey));
      Truthy(stored) && IsSafe(parse(stored.value), opts.allowedProtocols, Some(req.host))
    ensures DefaultRedirect(req, parse, fallbackUrl, opts) ==
      Success(req.session.value.values[opts.sessionKeyValue.GetOr(DefaultSessionKey)])
  {
  }

  /**
   * A non-empty parameter that fails the checks sends the request to the
   * fallback: the session is not consulted in its place.
   */
  lemma UnsafeParameterSkipsSession(req: Request, parse: string -> Url, fallbackUrl: string, opts: RedirectOptions)
    requires var param := Lookup(req.params, opts.redirectFieldName.GetOr(DefaultFieldName));
      Truthy(param) && !IsSafe(parse(param.value), opts.allowedProtocols, Some(req.host))
    requires IsSafe(parse(fallbackUrl), opts.allowedProtocols, Some(req.host))
    ensures DefaultRedirect(req, parse, fallbackUrl, opts) == Success(fallbackUrl)
  {
  }
}
