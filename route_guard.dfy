/** The request middleware: given the path and whether a session exists, let
    the request through or redirect it. */
module RouteGuard {

  import opened Text

  datatype Decision = Next | Redirect(to: string)

  predicate IsAuthPage(pathname: string)
  {
    pathname == "/login" || pathname == "/signup"
  }

  predicate IsAdminPage(pathname: string)
  {
    StartsWith(pathname, "/admin")
  }

  /** The last rule of `middleware`: a logged-out request for an admin page goes to login. */
  function AdminRule(pathname: string, isLoggedIn: bool): (d: Decision)
    ensures isLoggedIn || !IsAdminPage(pathname) ==> d == Next
    ensures d.Redirect? ==> d.to == "/login" && !isLoggedIn
  {
    if IsAdminPage(pathname) && !isLoggedIn then Redirect("/login") else Next
  }

  /** A request that passed the first two rules passes the admin rule: a
      logged-out admin request was already sent to the login page. */
  lemma AdminRuleUnreachable(pathname: string, isLoggedIn: bool)
    requires isLoggedIn || IsAuthPage(pathname) || pathname == "/"
    ensures AdminRule(pathname, isLoggedIn) == Next
  {
    if IsAdminPage(pathname) {
      AdminPageNotAuthPage(pathname);
    }
  }

  /** An admin path is neither an authentication page nor the landing page. */
  lemma AdminPageNotAuthPage(pathname: string)
    requires IsAdminPage(pathname)
    ensures !IsAuthPage(pathname) && pathname != "/"
  {
    assert pathname[1] == 'a';
    assert "/login"[1] == 'l' && "/signup"[1] == 's';
  }

  /** `middleware(req)`, with the session lookup as the input `isLoggedIn`. */
  function Middleware(pathname: string, isLoggedIn: bool): (d: Decision)
    ensures d.Redirect? ==> d.to == "/dashboard" || d.to == "/login"
    ensures d == Redirect("/dashboard") <==> IsAuthPage(pathname) && isLoggedIn
    ensures d == Redirect("/login") <==> !IsAuthPage(pathname) && !isLoggedIn && pathname != "/"
    ensures d == Next <==> (isLoggedIn && !IsAuthPage(pathname)) || (!isLoggedIn && (IsAuthPage(pathname) || pathname == "/"))
  {
    if IsAuthPage(pathname) && isLoggedIn then Redirect("/dashboard")
    else if !IsAuthPage(pathname) && !isLoggedIn && pathname != "/" then Redirect("/login")
    else
      AdminRuleUnreachable(pathname, isLoggedIn);
      AdminRule(pathname, isLoggedIn)
  }

  /** Every logged-out request for an admin page is sent to the login page. */
  lemma AdminPagesNeedSession(pathname: string)
    requires IsAdminPage(pathname)
    ensures Middleware(pathname, false) == Redirect("/login")
  {
  }

  /** A logged-in user reaches every admin page: there is no role check here. */
  lemma AdminPagesOnlyNeedSession(pathname: string)
    requires IsAdminPage(pathname)
    ensures Middleware(pathname, true) == Next
  {
    AdminPageNotAuthPage(pathname);
  }

  /** Following a redirect never redirects again with the same session. */
  lemma NoRedirectLoop(pathname: string, isLoggedIn: bool)
    requires Middleware(pathname, isLoggedIn).Redirect?
    ensures Middleware(Middleware(pathname, isLoggedIn).to, isLoggedIn) == Next
  {
    if isLoggedIn {
      assert Middleware(pathname, isLoggedIn).to == "/dashboard";
      assert !IsAuthPage("/dashboard");
    } else {
      assert Middleware(pathname, isLoggedIn).to == "/login";
    }
  }

  /** The landing page is public in both states of the session. */
  lemma LandingPagePublic(isLoggedIn: bool)
    ensures Middleware("/", isLoggedIn) == Next
  {
    assert !IsAuthPage("/");
  }
}
