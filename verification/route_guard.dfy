/** The redirect decision `updateSession` makes in src/lib/supabase/middleware.ts, from the
    request's pathname and whether the session has a user. */
module RouteGuard {
  import opened Common

  /** What the middleware answers: the request goes on, or a redirect. */
  datatype Decision = PassThrough | RedirectTo(location: string)

  const LoginPath: string := "/login"

  /** Paths that need a signed-in user. The test is a plain string prefix, and every such
      path is absolute. */
  predicate Guarded(path: string): (g: bool)
    ensures g ==> StartsWith(path, "/")
  {
    var g := StartsWith(path, "/admin") || StartsWith(path, "/profile") || StartsWith(path, "/checkout");
    assert g ==> path[..1] == "/" by {
      if StartsWith(path, "/admin") {
        assert path[..1] == path[..6][..1];
      } else if StartsWith(path, "/profile") {
        assert path[..1] == path[..8][..1];
      } else if StartsWith(path, "/checkout") {
        assert path[..1] == path[..9][..1];
      }
    }
    g
  }

  /** The condition of the first block of `updateSession`, the one whose body is empty. */
  predicate CatchAllApplies(path: string, hasUser: bool)
  {
    !hasUser && !StartsWith(path, "/login") && !StartsWith(path, "/auth") && !StartsWith(path, "/")
  }

  /** The chain of tests in `updateSession`, in source order. The first block has an empty
      body and so no branch here; the admin block only redirects, no role is checked. */
  function UpdateSession(path: string, hasUser: bool): (d: Decision)
    ensures d.RedirectTo? ==> d.location == LoginPath && !hasUser
    ensures hasUser ==> d == PassThrough
  {
    if StartsWith(path, "/admin") && !hasUser then RedirectTo(LoginPath)
    else if StartsWith(path, "/profile") && !hasUser then RedirectTo(LoginPath)
    else if StartsWith(path, "/checkout") && !hasUser then RedirectTo(LoginPath)
    else PassThrough
  }

  /** Without a user, a guarded path goes to the login page and every other path passes. */
  lemma AnonymousRedirectedExactlyWhenGuarded(path: string)
    ensures UpdateSession(path, false).RedirectTo? <==> Guarded(path)
    ensures Guarded(path) ==> UpdateSession(path, false) == RedirectTo("/login")
  {
  }

  /** The catch-all block can never fire: every pathname starts with `/`. */
  lemma CatchAllNeverApplies(path: string, hasUser: bool)
    requires |path| > 0 && path[0] == '/'
    ensures !CatchAllApplies(path, hasUser)
  {
    assert path[..1] == "/";
  }

  /** Whatever follows a guarded prefix, the path is guarded too: `/administrator` and
      `/checkout-x` redirect as `/admin` and `/checkout` do. */
  lemma GuardIsPlainPrefix(tail: string)
    ensures UpdateSession("/admin" + tail, false) == RedirectTo(LoginPath)
    ensures UpdateSession("/profile" + tail, false) == RedirectTo(LoginPath)
    ensures UpdateSession("/checkout" + tail, false) == RedirectTo(LoginPath)
  {
    assert ("/admin" + tail)[..6] == "/admin";
    assert ("/profile" + tail)[..8] == "/profile";
    assert ("/checkout" + tail)[..9] == "/checkout";
  }

  /** Named cases: look-alike paths are guarded, public paths are not, and a signed-in
      user reaches `/admin` itself. */
  lemma GuardExamples()
    ensures UpdateSession("/administrator", false) == RedirectTo(LoginPath)
    ensures UpdateSession("/checkout-x", false) == RedirectTo(LoginPath)
    ensures UpdateSession("/products/lamp", false) == PassThrough
    ensures UpdateSession("/", false) == PassThrough
    ensures UpdateSession("/admin", true) == PassThrough
  {
    GuardIsPlainPrefix("istrator");
    GuardIsPlainPrefix("-x");
    var lamp := "/products/lamp";
    assert lamp[..6][2] != "/admin"[2];
    assert lamp[..8][4] != "/profile"[4];
    assert lamp[..9][2] != "/checkout"[2];
  }
}
