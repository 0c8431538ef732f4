/**
 * The route shell (src/App.jsx): by the prefix of the current path it decides whether the
 * page is a sign-in/sign-up page, drawn without the app's frame, and whether the bottom
 * navigation bar is hidden.
 */
module AppRoutes {
  import Text

  /** The path prefixes on which the bottom bar is hidden. */
  const FooterHiddenPaths: seq<string> := [
    "/signin",
    "/signup",
    "/admin/dashboard",
    "/admin/users",
    "/admin/plans",
    "/admin/offers",
    "/admin/complaints"
  ]

  /** The path prefixes of the authentication pages. */
  const AuthPaths: seq<string> := ["/signin", "/signup"]

  /** `paths.some((path) => pathname.startsWith(path))`. */
  function SomePrefix(paths: seq<string>, pathname: string): (r: bool)
    ensures r <==> exists i :: 0 <= i < |paths| && Text.StartsWith(pathname, paths[i])
  {
    if paths == [] then false
    else
      var rest := SomePrefix(paths[1..], pathname);
      assert forall i :: 1 <= i < |paths| ==> paths[i] == paths[1..][i - 1];
      Text.StartsWith(pathname, paths[0]) || rest
  }

  /** `hideFooter`. */
  predicate HideFooter(pathname: string) {
    SomePrefix(FooterHiddenPaths, pathname)
  }

  /** `isAuthPage`. */
  predicate IsAuthPage(pathname: string) {
    SomePrefix(AuthPaths, pathname)
  }

  /**
   * A page is an authentication page exactly when its path starts with "/signin" or
   * "/signup" — by prefix, so "/signinX" is one too — and such a page never shows the bar.
   */
  lemma AuthPages(pathname: string, suffix: string)
    ensures IsAuthPage(pathname) <==> Text.StartsWith(pathname, "/signin") || Text.StartsWith(pathname, "/signup")
    ensures IsAuthPage(pathname) ==> HideFooter(pathname)
    ensures IsAuthPage("/signin" + suffix) && IsAuthPage("/signup" + suffix)
  {
    if IsAuthPage(pathname) {
      var i :| 0 <= i < |AuthPaths| && Text.StartsWith(pathname, AuthPaths[i]);
      assert FooterHiddenPaths[i] == AuthPaths[i];
    }
    assert Text.StartsWith("/signin" + suffix, AuthPaths[0]) by {
      assert ("/signin" + suffix)[..7] == "/signin";
    }
    assert Text.StartsWith("/signup" + suffix, AuthPaths[1]) by {
      assert ("/signup" + suffix)[..7] == "/signup";
    }
  }

  /** The administration pages hide the bar but are drawn inside the app's frame. */
  lemma AdminPages(pathname: string)
    requires Text.StartsWith(pathname, "/admin/")
    requires exists i :: 2 <= i < |FooterHiddenPaths| && Text.StartsWith(pathname, FooterHiddenPaths[i])
    ensures HideFooter(pathname) && !IsAuthPage(pathname)
  {
    assert pathname[1] == 'a';
    forall i | 0 <= i < |AuthPaths| ensures !Text.StartsWith(pathname, AuthPaths[i]) {
      assert AuthPaths[i][1] == 's';
    }
  }

  /** The home page and every page under "/user/" show the bar. */
  lemma UserPagesShowFooter(pathname: string)
    requires pathname == "/" || Text.StartsWith(pathname, "/user/")
    ensures !HideFooter(pathname) && !IsAuthPage(pathname)
  {
    forall i | 0 <= i < |FooterHiddenPaths| ensures !Text.StartsWith(pathname, FooterHiddenPaths[i]) {
      assert |FooterHiddenPaths[i]| >= 7;
      assert FooterHiddenPaths[i][1] == 's' || FooterHiddenPaths[i][1] == 'a';
      if pathname != "/" {
        assert pathname[1] == 'u';
      }
    }
    forall i | 0 <= i < |AuthPaths| ensures !Text.StartsWith(pathname, AuthPaths[i]) {
      assert AuthPaths[i] == FooterHiddenPaths[i];
    }
  }
}
