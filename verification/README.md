# Class-based auth views: redirect safety, view decisions and version string

This project models, in Dafny, the decision logic of `class_based_auth_views`,
a set of class-based replacements for Django's login, logout, password-reset
and password-reset-confirm views. The model covers three parts:

- **Redirect safety** (`utils.dfy`, module `Utils`). `ensure_safe_url` checks a
  URL's scheme against an allow-list (default `http`, `https`) and its network
  location against an allowed host. It has a query mode that returns a boolean
  and a strict mode that raises `SuspiciousOperation`. `default_redirect` picks
  the request parameter, else the session value, else the fallback. It keeps
  the candidate only if it is safe and then runs a final strict check.
- **View decisions** (`views.dfy`, module `Views`):
  - where login and logout send the browser;
  - the session test-cookie protocol;
  - the options the password-reset view hands to the email form;
  - the reset-link gate of the confirmation view (decode the id, look up the
    user, check the token).
- **Version string** (`version.dfy`, module `Version`). `get_version` assembles
  `major.minor[.micro][levelserial]`. A parser for that string is its partner,
  and a round-trip lemma ties the two together.

`http.dfy` (module `Http`) holds the framework objects the views read:

- a URL already split into scheme, network location and the rest;
- the user, the session and the request.

`wrappers.dfy` holds `Option` and `Result`. They stand in for Python's `None`
and for raised exceptions.

Framework services are passed in as function values:

- URL parsing (`parse: string -> Url`);
- `base36_to_int`;
- the user lookup by id;
- the token generator's `check_token`.

Outcomes are values. A view returns a `Response` (`Redirect`, `Render` of a
page, `AllowedVerbs` for OPTIONS, or `MethodNotAllowed`). The logout view
returns it together with the session it leaves behind, outside the `Result`,
because a failing request has already logged the user out.

Verb dispatch follows Django 1.5 and later: HEAD runs a view's `get`, OPTIONS
is answered by the framework with the verbs the view handles, and any other
verb without a handler gets 405.

Two behaviours of the code are worth knowing:

- `LogoutView` defines only `get`. A POST is therefore refused with 405 and
  nobody is logged out (`Views.Logout`). A GET that fails has still logged the
  user out, since `logout` runs before the page is built.
- `default_redirect` does not fall through to the session value when the
  request parameter is present but unsafe. It goes straight to the fallback
  (`Utils.UnsafeParameterSkipsSession`).

The members named after the view methods (`LoginPost`, `LogoutGet`, `Logout`)
model the code as written. The `…Checked` members are the corrected versions
listed under Findings.

## Model

| member | source | states |
|---|---|---|
| `Utils.EnsureSafeUrl` | class_based_auth_views/utils.py:31-46 | Query mode always answers, and answers true exactly when the scheme is empty or allowed and the network location is empty or the allowed host (no host given disables that check). Strict mode succeeds, with true, exactly when the URL is safe. It raises the protocol error when the scheme fails, whatever the host, and the host error when only the host fails. |
| `Utils.DefaultAllowList` | class_based_auth_views/utils.py:32-33 | With no allow-list given, exactly the empty scheme, `http` and `https` pass the scheme check. |
| `Utils.RelativeUrlIsSafe` | class_based_auth_views/utils.py:37-46 | A URL with empty scheme and empty network location is safe in both modes, under any allow-list and host. |
| `Utils.ForeignSchemeIsUnsafe` | class_based_auth_views/utils.py:38-41 | A non-empty scheme outside the allow-list makes query mode answer false and strict mode raise the protocol error. |
| `Utils.ForeignHostIsUnsafe` | class_based_auth_views/utils.py:42-45 | A non-empty network location other than a given non-empty host is unsafe. An empty network location or an empty host leaves the answer as if no host were given. |
| `Utils.StrictModeAgreesWithQuery` | class_based_auth_views/utils.py:38-46 | Strict mode raises exactly when query mode answers false; otherwise it answers true. |
| `Utils.DefaultRedirect` | class_based_auth_views/utils.py:7-28 | A non-empty, safe requested target is returned. Otherwise the fallback is returned if it is safe, else the fallback's strict-mode error is raised. Every returned URL passes the safety check against the request's host. |
| `Utils.ParameterPreferred` | class_based_auth_views/utils.py:11-23 | A non-empty, safe request parameter (field name defaulting to `next`) is the result, and the session cannot change the result. |
| `Utils.SessionUsedWithoutParameter` | class_based_auth_views/utils.py:13-23 | With the parameter missing or empty, a non-empty, safe session value (key defaulting to `redirect_to`) is the result. |
| `Utils.UnsafeParameterSkipsSession` | class_based_auth_views/utils.py:12-23 | A non-empty but unsafe parameter yields the fallback, even when the session holds a safe value. |
| `Views.LoginSuccessUrl` | class_based_auth_views/views.py:79-88 | As written: the result is the configured success URL (else the parameter) when that is non-empty and names no other host; in every other case it is `LOGIN_REDIRECT_URL`. There is no scheme check. |
| `Views.LoginSuccessUrlChecked` | class_based_auth_views/views.py:79-88 | Corrected: any result other than `LOGIN_REDIRECT_URL` is non-empty, same-host and has an allowed scheme. It agrees with the as-written version whenever the candidate's scheme is allowed. |
| `Views.ConfiguredSuccessUrlPreferred` | class_based_auth_views/views.py:80-81 | A configured, same-host `success_url` is used in preference to the request parameter. |
| `Views.LoginSuccessUrlAdmitsForeignScheme` | class_based_auth_views/views.py:85-88 | For the parameter `ftp:///x` (scheme `ftp`, no network location), the as-written version returns it although `ensure_safe_url` rejects it. The corrected version returns `LOGIN_REDIRECT_URL`. |
| `Views.SetTestCookie` | class_based_auth_views/views.py:95-96 | The marker is present afterwards; session values and user are unchanged. |
| `Views.CheckAndDeleteTestCookie` | class_based_auth_views/views.py:98-102 | Reports true exactly when the marker was present. The marker is absent afterwards, and nothing else in the session changes. |
| `Views.TestCookieRoundTrip` | class_based_auth_views/views.py:95-102 | A set marker is reported once and removed. A second check reports false and changes nothing. |
| `Views.LoginGet` | class_based_auth_views/views.py:63-65 | GET leaves the test-cookie marker set and the session's values and user as they were, and renders the login form. |
| `Views.LoginGetThenCheck` | class_based_auth_views/views.py:63-65 | The marker the form page sets is reported by the next submission's check, which removes it and changes nothing else. |
| `Views.LogIn` | class_based_auth_views/views.py:72 | Django's `login`, which `form_valid` calls: the user is recorded. A session that belonged to a different user is emptied first; otherwise its contents and marker are kept. |
| `Views.LoginPost` | class_based_auth_views/views.py:67-77 | POST redirects exactly when the form authenticated a user. On success the user is logged in, the test cookie is gone, and the target is the as-written `get_success_url`. The session values are kept unless a different user was logged in, in which case they are emptied. On failure the test cookie is set again, values and user are unchanged, and the form is re-rendered. |
| `Views.LoginPostChecked` | class_based_auth_views/views.py:67-77 | Corrected flow: the session ends exactly as in `LoginPost`. A successful login redirects to `LOGIN_REDIRECT_URL` or to a URL `ensure_safe_url` accepts for the request host. It agrees with `LoginPost` whenever the candidate's scheme is allowed. |
| `Views.TestCookieIsInformational` | class_based_auth_views/views.py:67-73 | Whether the test cookie came back changes neither the response nor the resulting session. |
| `Views.LoginRedirectStaysOnHost` | class_based_auth_views/views.py:71-73 | After a successful login the redirect goes to `LOGIN_REDIRECT_URL` or to a non-empty URL naming no other host. |
| `Views.LogoutGet` | class_based_auth_views/views.py:114-127 | As written: the session is flushed on every path, the failing one included. A non-empty parameter naming no other host is the redirect; otherwise `next_page` if set. With neither, the request fails, because rendering the page calls the undefined `get_success_url`. |
| `Views.LogoutGetChecked` | class_based_auth_views/views.py:114-127 | Corrected: the session is always flushed. The parameter is used only if it is non-empty, same-host and has an allowed scheme; otherwise `next_page`, else the logged-out page is rendered. It agrees with `LogoutGet` wherever that succeeds and the scheme is allowed, and renders the page where `LogoutGet` fails. |
| `Views.LogoutAdmitsForeignScheme` | class_based_auth_views/views.py:116-121 | For the parameter `ftp:///x`, the as-written logout redirects to it although `ensure_safe_url` rejects it. The corrected one falls back to `next_page` or the page. |
| `Views.LogoutPageFails` | class_based_auth_views/views.py:115-127 | With no parameter and no `next_page`, the as-written view flushes the session and then fails with the missing-`get_success_url` error. The corrected one renders the logged-out page with a flushed session. |
| `Views.Logout` | class_based_auth_views/views.py:105-127 | GET and HEAD always leave a flushed session, whether they succeed or fail. A successful one redirects. It fails exactly when there is no usable parameter and no `next_page`. OPTIONS gets the allowed-verbs answer and any other verb 405, both with the session untouched. |
| `Views.LogoutRedirectTargets` | class_based_auth_views/views.py:114-123 | Every redirect logout issues goes to the request parameter or to `next_page`. |
| `Views.ResetFormValid` | class_based_auth_views/views.py:150-164 | The save options carry `use_https`, the token generator, `from_email`, the email template and the request unchanged. `domain_override` is present exactly for the admin site and is then the `HTTP_HOST` header; a missing header is a `KeyError`. The response redirects to `post_reset_redirect`. |
| `Views.AdminSiteOnlyAddsDomain` | class_based_auth_views/views.py:154-162 | Turning on the admin-site flag adds `domain_override` and changes none of the other five options. |
| `Views.CheckLink` | class_based_auth_views/views.py:199-207 | The link is valid exactly when the id decodes, a user with that id exists and the token checks against that user. A failed decode or a missing user leaves no user and never raises. |
| `Views.BadIdIsInvalid` | class_based_auth_views/views.py:201-206 | An undecodable id or an unknown user gives an invalid link with no user. |
| `Views.TokenDecides` | class_based_auth_views/views.py:206-207 | For an existing user, validity is exactly the token check, so a token that fails the check makes the link invalid. |
| `Views.ResetConfirm` | class_based_auth_views/views.py:179-192 | An invalid link renders the page with `validlink` false and no form, for any verb, and saves nothing. On a valid link, GET, HEAD and an invalid POST or PUT render the form page, OPTIONS gets the allowed-verbs answer, and any other verb gets 405. A password is saved exactly for a valid link on a POST or PUT with a valid form. It is saved for the link's user and followed by a redirect to `post_reset_redirect`. Any rendered page carries the `validlink` that `check_link` computed. |
| `Version.GetVersion` | class_based_auth_views/__init__.py:10-17 | The version string always begins with `<major>.<minor>`. |
| `Version.GetVersionLayout` | class_based_auth_views/__init__.py:11-17 | The string is `<major>.<minor>`, then `.<micro>` exactly when micro is non-zero, then `<releaselevel><serial>` exactly for a non-final long form. Nothing separates the pieces. |
| `Version.ReleaseSuffixOnlyInLongForm` | class_based_auth_views/__init__.py:15-16 | The long form is the short form plus `<releaselevel><serial>` for a non-final release. For a final release both forms coincide. |
| `Version.ShortFormIsFinalLongForm` | class_based_auth_views/__init__.py:15-16 | The short form never carries the release suffix: it equals the long form of the same record with the level set to `final`. |
| `Version.MicroShownIffNonZero` | class_based_auth_views/__init__.py:13-14 | The short form is bare `<major>.<minor>` exactly when micro is zero. |
| `Version.ShippedVersion` | class_based_auth_views/__init__.py:2-19 | For the shipped record (0, 1, 0, alpha, 1), `__version__` is `0.1alpha1` and the short form is `0.1`. |
| `Version.ParseGetVersion` | class_based_auth_views/__init__.py:10-17 | Parsing the string gives back major, minor and micro, plus the release level and serial when the suffix was printed. A short form or a final release reads back as final with serial 0. The long form needs a release level of letters for this. |

## Findings

| source | as written | input that shows it | evidently intended | confidence | as-written member | corrected member |
|---|---|---|---|---|---|---|
| class_based_auth_views/views.py:85-88 | `get_success_url` checks only the network location, so any scheme passes | request parameter `next=ftp:///x` (scheme `ftp`, empty network location) is returned as the login redirect | reject schemes outside `http`/`https`, as `ensure_safe_url` in the same package does | medium, not executed | `Views.LoginSuccessUrlAdmitsForeignScheme` | `Views.LoginSuccessUrlChecked` |
| class_based_auth_views/views.py:116-121 | `LogoutView.get` checks only the network location of the parameter | request parameter `next=ftp:///x` is redirected to after logout | reject schemes outside `http`/`https` before redirecting | medium, not executed | `Views.LogoutAdmitsForeignScheme` | `Views.LogoutGetChecked` |
| class_based_auth_views/views.py:124-127 | with no usable target and no `next_page`, `get` renders the page, and `get_context_data` calls `self.get_success_url()`, which the view and its bases do not define | GET on the logout view with no `next` parameter and `next_page` unset: `AttributeError` instead of the logged-out page | render the logged-out page | medium, not executed | `Views.LogoutPageFails` | `Views.LogoutGetChecked` |

Django's redirect response accepts `ftp`, so these two inputs are redirected on every Django release. A scheme such as `javascript:` also passes both views' checks, but since Django 1.3.2 and 1.4.1 the redirect response itself refuses it (see "## Left out").

The corrected login flow is `Views.LoginPostChecked`, built on `Views.LoginSuccessUrlChecked`. `Views.LoginPost` and `Views.Logout` keep the code as written.

## Left out

- URL parsing (`urlparse`) is not modelled. The views and `default_redirect` take a parsing function, and `ensure_safe_url` takes an already-parsed URL.
- `base36_to_int`, the user lookup (`User.objects.get`) and the token generator's `check_token` belong to the framework. They are function parameters (`Views.Auth`), so properties that depend on their internals (such as the base-36 spelling of a given id) are not proved.
- `request.REQUEST` (GET and POST merged by the framework) is one map of parameters. The order in which the framework merges the two is not modelled.
- Django's `login` is modelled as `Views.LogIn`: the session is emptied when a different user was logged in, otherwise the user is recorded. Users are compared by id. `logout` is modelled as flushing the session to empty. Session-key cycling is not modelled.
- The test cookie is a boolean in the session. The framework's cookie name and value are not modelled.
- Template rendering, the context built by `get_context_data`, `CurrentAppMixin`, and the `csrf_protect` and `never_cache` decorators are framework I/O. A render is a `Page` value carrying only the flags the source sets (`validlink`, whether a form is shown). The logout page's context is not modelled beyond the failure its `get_success_url` call causes (see Findings).
- `form.save` and email sending are left out. The reset view returns the options it would pass to `save`, and the confirm view returns the user whose password would be stored.
- `PasswordResetView`'s invalid-form path and the framework's verb dispatch for `LoginView` and `PasswordResetView` are not modelled. Django's `FormView.form_invalid`, inherited by the view, re-renders an invalid form, with no code of this repository involved. Only `form_valid`, `get`/`post` of the login view, the logout dispatch and the confirm dispatch are modelled.
- `Views.Logout`: verb dispatch follows Django 1.5 and later (HEAD runs `get`, OPTIONS answered by the framework). Under Django 1.3, where class-based views first appeared, HEAD and OPTIONS would get 405 and nobody would be logged out. The headers of the OPTIONS answer are not modelled.
- `Views.ResetConfirm`: verb dispatch follows Django 1.5 and later, as for logout. HEAD renders the form page like GET, and OPTIONS on a valid link gets the allowed-verbs answer. Under Django 1.3 both would get 405 on a valid link.
- `Views.LoginPost`, `Views.LogoutGet`, `Views.Logout`: a `Redirect` response always succeeds. The scheme check of Django's `HttpResponseRedirect` is not modelled. Since Django 1.3.2 and 1.4.1 that class raises `SuspiciousOperation` for a scheme other than `http`, `https` or `ftp`. On those releases, a parameter such as `javascript:alert(1)` makes the as-written login fail after the user is logged in, and makes logout fail after the session is flushed. The statement that a logout GET fails exactly when there is no usable target holds only for targets whose scheme the redirect class accepts, or for older releases.
- The text of the `SuspiciousOperation` messages is not modelled. The exception is a `Result` failure naming the check that failed (scheme or host), not control flow.
- `Utils.EnsureSafeUrl`: the allow-list is a sequence of strings. Python would also accept any container here, including a string with substring membership.
- `Version.ParseGetVersion`: the round trip is stated only for release levels made of letters (any level for the short form). With a level containing digits, dots or signs, the printed string is ambiguous.
- `setup.py` is packaging metadata with no logic.
