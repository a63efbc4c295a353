/** The request middleware (`middleware.js`): every path under the "/admin"
 *  prefix, except the login page, turns away a signed-in user whose email is not
 *  the administrator's. It runs only on the paths its `config.matcher` selects.
 *  The session refresh that precedes it is not part of this model.
 */
module AdminMiddleware {
  import opened Common

  const AdminPrefix := "/admin"
  const LoginPath := "/admin/login"

  /** The session's response passed on, a redirect to "/", or, for a path the
   *  matcher leaves out, the request served without the middleware. */
  datatype Decision = PassThrough | RedirectHome | NotRun

  /** The starts of a path, after its leading "/", that `config.matcher` skips. */
  const SkippedPrefixes := ["_next/static", "_next/image", "favicon.ico"]
  /** The endings of a path that `config.matcher` skips; the test is case-sensitive. */
  const ImageEndings := [".svg", ".png", ".jpg", ".jpeg", ".gif", ".webp"]

  predicate EndsWith(s: string, e: string)
  {
    |e| <= |s| && s[|s| - |e|..] == e
  }

  /** Whether `config.matcher` runs the middleware on a path: the path is "/"
   *  followed by text that starts with none of the skipped prefixes and ends
   *  with none of the image endings. */
  predicate Matched(path: string)
  {
    && |path| >= 1 && path[0] == '/'
    && (forall p :: p in SkippedPrefixes ==> !StartsWith(path[1..], p))
    && (forall e :: e in ImageEndings ==> !EndsWith(path[1..], e))
  }

  /** A request as it reaches the application: the middleware runs only on the
   *  paths the matcher selects. */
  function Handle(path: string, user: Option<Option<string>>, adminEmail: Option<string>): (r: Decision)
    ensures r == NotRun <==> !Matched(path)
    ensures r == RedirectHome <==>
      Matched(path) && StartsWith(path, AdminPrefix) && path != LoginPath && user.Some? && user.value != adminEmail
  {
    if Matched(path) then Middleware(path, user, adminEmail) else NotRun
  }

  /** What the middleware does; `user` is the signed-in user's email (itself
   *  `None` when the account has none), `adminEmail` is `ADMIN_EMAIL`. */
  function Middleware(path: string, user: Option<Option<string>>, adminEmail: Option<string>): (r: Decision)
    ensures r == RedirectHome <==>
      StartsWith(path, AdminPrefix) && path != LoginPath && user.Some? && user.value != adminEmail
  {
    if !StartsWith(path, AdminPrefix) then PassThrough
    else if path == LoginPath then PassThrough
    else if user.Some? && user.value != adminEmail then RedirectHome
    else PassThrough
  }

  /** Whether the middleware asks who the user is: for every path under "/admin"
   *  except the login page, and for no other. */
  function LooksUpUser(path: string): (r: bool)
    ensures r ==> StartsWith(path, AdminPrefix)
    ensures StartsWith(path, AdminPrefix) && path != LoginPath ==> r
    ensures path == LoginPath ==> !r
  {
    StartsWith(path, AdminPrefix) && path != LoginPath
  }

  /** Skipping the lookup is safe: on a path where the user is not looked up, the
   *  middleware passes whoever is signed in. */
  lemma UnlookedPathsPass(path: string, u1: Option<Option<string>>, u2: Option<Option<string>>,
                          adminEmail: Option<string>)
    requires !LooksUpUser(path)
    ensures Middleware(path, u1, adminEmail) == PassThrough == Middleware(path, u2, adminEmail)
  {
  }

  /** Paths outside "/admin", the login page, signed-out visitors and the
   *  administrator all pass; the gate is a prefix test, so "/administrator" is
   *  gated too, while "/Admin" is not. */
  lemma GateCases(user: Option<Option<string>>, adminEmail: Option<string>)
    ensures Middleware("/", user, adminEmail) == PassThrough
    ensures Middleware(LoginPath, user, adminEmail) == PassThrough && !LooksUpUser(LoginPath)
    ensures forall p :: Middleware(p, None, adminEmail) == PassThrough
    ensures forall p :: Middleware(p, Some(adminEmail), adminEmail) == PassThrough
    ensures user.Some? && user.value != adminEmail ==> Middleware("/administrator", user, adminEmail) == RedirectHome
    ensures Middleware("/Admin", user, adminEmail) == PassThrough
  {
    assert StartsWith("/administrator", AdminPrefix) by {
      assert "/administrator"[..6] == AdminPrefix;
    }
    assert !StartsWith("/Admin", AdminPrefix) by {
      assert "/Admin"[1] != AdminPrefix[1];
    }
  }

  /** The matcher skips image files everywhere, so an image path under "/admin"
   *  is served to any visitor without the administrator check, while an admin
   *  page and an upper-case ".PNG" ending are checked. */
  lemma AdminImagesUngated(user: Option<Option<string>>, adminEmail: Option<string>)
    ensures Handle("/admin/logo.png", user, adminEmail) == NotRun
    ensures Handle("/_next/static/app.js", user, adminEmail) == NotRun
    ensures user.Some? && user.value != adminEmail ==> Handle("/admin/orders", user, adminEmail) == RedirectHome
    ensures user.Some? && user.value != adminEmail ==> Handle("/admin/logo.PNG", user, adminEmail) == RedirectHome
  {
    assert EndsWith("/admin/logo.png"[1..], ".png");
    assert StartsWith("/_next/static/app.js"[1..], "_next/static");
    AdminOrdersMatched();
    UpperCaseMatched();
  }

  lemma AdminOrdersMatched()
    ensures Matched("/admin/orders") && StartsWith("/admin/orders", AdminPrefix) && "/admin/orders" != LoginPath
  {
    var rest := "/admin/orders"[1..];
    assert rest[0] == 'a';
    assert rest[|rest| - 1] == 's';
    assert "/admin/orders"[..6] == AdminPrefix;
    assert |"/admin/orders"| != |LoginPath|;
  }

  lemma UpperCaseMatched()
    ensures Matched("/admin/logo.PNG") && StartsWith("/admin/logo.PNG", AdminPrefix) && "/admin/logo.PNG" != LoginPath
  {
    var rest := "/admin/logo.PNG"[1..];
    assert rest[0] == 'a';
    assert rest[|rest| - 1] == 'G';
    assert "/admin/logo.PNG"[..6] == AdminPrefix;
    assert |"/admin/logo.PNG"| != |LoginPath|;
  }
}
