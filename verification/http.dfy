/**
 * The framework objects the views read: an already-parsed URL, the user, the
 * session store and the request. Only the parts the repository's code looks at
 * are kept.
 */
module Http {
  import opened Wrappers

  /** A URL as `urlparse` splits it; only the scheme and the network location are inspected. */
  datatype Url = Url(scheme: string, netloc: string, rest: string)

  /** A user of the authentication system, known by its integer id. */
  datatype User = User(id: int)

  /**
   * The session store as one request sees it: its string values, whether the
   * test-cookie marker is present, and the logged-in user.
   */
  datatype Session = Session(values: map<string, string>, testCookie: bool, user: Option<User>)

  /**
   * An incoming request. `params` is `request.REQUEST` (query string and form
   * body merged), `session` is absent when no session middleware ran, `host` is
   * `request.get_host()`, `secure` is `request.is_secure()` and `meta` is
   * `request.META`.
   */
  datatype Request = Request(
    params: map<string, string>,
    session: Option<Session>,
    host: string,
    secure: bool,
    meta: map<string, string>)

  /**
   * The HTTP verb, as far as the views tell verbs apart. HEAD runs a view's
   * `get`, OPTIONS is answered by the framework, and `OtherMethod` is any verb
   * without a handler.
   */
  datatype Method = Get | Head | Post | Put | Options | OtherMethod

  /** `m.get(k)`. */
  function Lookup(m: map<string, string>, k: string): Option<string> {
    if k in m then Some(m[k]) else None
  }

  /** Python truthiness of an optional string: present and non-empty. */
  predicate Truthy(o: Option<string>) {
    o.Some? && o.value != ""
  }
}
