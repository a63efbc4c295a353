/** The sign-in callback (`app/auth/callback/route.js`): exchange the code for a
 *  session, decide whether the user still has to go through onboarding, and
 *  redirect.
 *
 *  The session exchange, the user lookup, the profile row and the environment are
 *  parameters.
 */
module AuthCallback {
  import opened Common

  const ErrorPath := "/auth/auth-code-error"
  const OnboardingPath := "/?onboarding=true"

  /** The request URL's origin and its `code` and `next` parameters (`None` when
   *  absent). */
  datatype CallbackUrl = CallbackUrl(origin: string, code: Option<string>, next: Option<string>)

  /** The signed-in user: `id` and whether `user_metadata.onboarding_completed`
   *  is truthy. */
  datatype AuthUser = AuthUser(id: string, metadataCompleted: bool)

  /** What the route's calls return: whether the exchange failed, the user, and
   *  whether the profile row's `onboarding_completed` is truthy. */
  datatype Session = Session(exchangeFails: bool, user: Option<AuthUser>, profileCompleted: bool)

  /** `x-forwarded-host` and whether `NODE_ENV` is "development". */
  datatype Env = Env(forwardedHost: Option<string>, development: bool)

  /** The redirect's location, whether the profile row was read, and whether the
   *  user's metadata was set to completed. */
  datatype Outcome = Outcome(location: string, profileRead: bool, metadataSynced: bool)

  predicate Truthy(s: Option<string>)
  {
    s.Some? && s.value != ""
  }

  /** `searchParams.get("next") ?? "/"`: only a missing parameter defaults. */
  function NextPath(url: CallbackUrl): (r: string)
    ensures url.next.None? ==> r == "/"
    ensures url.next.Some? ==> r == url.next.value
  {
    if url.next.Some? then url.next.value else "/"
  }

  /** The origin of the redirect: the request's own origin in development or
   *  without a forwarded host, `https://<forwarded host>` otherwise. */
  function RedirectBase(origin: string, env: Env): (r: string)
    ensures env.development || !Truthy(env.forwardedHost) ==> r == origin
    ensures !env.development && Truthy(env.forwardedHost) ==> r == "https://" + env.forwardedHost.value
  {
    if env.development then origin
    else if Truthy(env.forwardedHost) then "https://" + env.forwardedHost.value
    else origin
  }

  function Callback(url: CallbackUrl, s: Session, env: Env): Outcome
  {
    if !Truthy(url.code) || s.exchangeFails || s.user.None? then
      Outcome(url.origin + ErrorPath, false, false)
    else
      var needsOnboarding := !s.user.value.metadataCompleted;
      var profileRead := needsOnboarding;
      var synced := needsOnboarding && s.profileCompleted;
      var path := if needsOnboarding && !s.profileCompleted then OnboardingPath else NextPath(url);
      Outcome(RedirectBase(url.origin, env) + path, profileRead, synced)
  }

  /** No code, a failed exchange or no user sends the user to the error page on
   *  the request's own origin, with nothing read or written. */
  lemma ErrorPage(url: CallbackUrl, s: Session, env: Env)
    requires !Truthy(url.code) || s.exchangeFails || s.user.None?
    ensures Callback(url, s, env) == Outcome(url.origin + ErrorPath, false, false)
    ensures url.code == Some("") ==> Callback(url, s, env).location == url.origin + ErrorPath
  {
  }

  /** With a signed-in user: completed metadata skips the profile read and goes
   *  to `next`; otherwise a completed profile also goes to `next` and sets the
   *  metadata; otherwise the user is sent to onboarding. */
  lemma OnboardingDecision(url: CallbackUrl, s: Session, env: Env)
    requires Truthy(url.code) && !s.exchangeFails && s.user.Some?
    ensures var o := Callback(url, s, env);
      var base := RedirectBase(url.origin, env);
      && (s.user.value.metadataCompleted ==> o == Outcome(base + NextPath(url), false, false))
      && (!s.user.value.metadataCompleted && s.profileCompleted ==> o == Outcome(base + NextPath(url), true, true))
      && (!s.user.value.metadataCompleted && !s.profileCompleted ==> o == Outcome(base + OnboardingPath, true, false))
  {
  }
}
