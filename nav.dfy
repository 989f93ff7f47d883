/** The sidebar navigation: which links are highlighted, which links are shown,
    and whether the signed-in user is an administrator. */
module Nav {

  import opened Common
  import opened Text
  import opened Store

  datatype NavItem = NavItem(title: string, href: string)

  const MemberNavItems: seq<NavItem> := [NavItem("Dashboard", "/dashboard")]

  const AdminNavItems: seq<NavItem> := [
    NavItem("Admin Dashboard", "/admin"),
    NavItem("User Management", "/admin/users"),
    NavItem("SOP Tracking", "/admin/sop-tracking"),
    NavItem("Settings", "/admin/settings")
  ]

  /** `isActive(href)` on the current `pathname`: the dashboard link only on the
      dashboard itself, every other link on any path it prefixes. */
  function IsActive(pathname: string, href: string): (r: bool)
    ensures href == "/dashboard" ==> (r <==> pathname == "/dashboard")
    ensures href != "/dashboard" ==> (r <==> StartsWith(pathname, href))
  {
    if href == "/dashboard" && pathname == "/dashboard" then true
    else StartsWith(pathname, href) && href != "/dashboard"
  }

  /** The links rendered: the member links, then the admin links for an administrator. */
  function VisibleNavItems(isAdmin: bool): (items: seq<NavItem>)
    ensures |items| >= |MemberNavItems| && items[..|MemberNavItems|] == MemberNavItems
    ensures isAdmin ==> items[|MemberNavItems|..] == AdminNavItems
    ensures !isAdmin ==> |items| == |MemberNavItems|
  {
    if isAdmin then MemberNavItems + AdminNavItems else MemberNavItems
  }

  /** The highlighted links among those rendered. */
  function ActiveNavItems(pathname: string, isAdmin: bool): (r: seq<NavItem>)
    ensures forall i :: 0 <= i < |r| ==> r[i] in VisibleNavItems(isAdmin) && IsActive(pathname, r[i].href)
    ensures forall it :: it in VisibleNavItems(isAdmin) && IsActive(pathname, it.href) ==> it in r
    ensures IsSublist(r, VisibleNavItems(isAdmin))
  {
    FilterIsSublist(VisibleNavItems(isAdmin), (item: NavItem) => IsActive(pathname, item.href));
    Filter(VisibleNavItems(isAdmin), (item: NavItem) => IsActive(pathname, item.href))
  }

  /** A member sees no admin link. */
  lemma MemberSeesNoAdminLinks()
    ensures forall i :: 0 <= i < |VisibleNavItems(false)| ==> !StartsWith(VisibleNavItems(false)[i].href, "/admin")
  {
    assert VisibleNavItems(false) == [NavItem("Dashboard", "/dashboard")];
    assert "/dashboard"[..6] != "/admin" by {
      assert "/dashboard"[1] == 'd';
    }
  }

  /** Prefix matching highlights both the admin dashboard link and the user
      management link on the user management page. */
  lemma AdminUsersHighlightsTwoLinks()
    ensures ActiveNavItems("/admin/users", true) ==
      [NavItem("Admin Dashboard", "/admin"), NavItem("User Management", "/admin/users")]
  {
    var p := "/admin/users";
    assert IsActive(p, "/admin") && IsActive(p, "/admin/users");
    assert !IsActive(p, "/dashboard");
    assert !StartsWith(p, "/admin/sop-tracking") by {
      assert |"/admin/sop-tracking"| > |p|;
    }
    assert !StartsWith(p, "/admin/settings") by {
      assert |"/admin/settings"| == 15 && |p| == 12;
    }
    assert VisibleNavItems(true) == [NavItem("Dashboard", "/dashboard")] + AdminNavItems;
  }

  /** The dashboard link is not highlighted below the dashboard. */
  lemma DashboardLinkExact(rest: string)
    requires rest != ""
    ensures !IsActive("/dashboard" + rest, "/dashboard")
    ensures IsActive("/dashboard", "/dashboard")
  {
    assert |"/dashboard" + rest| > |"/dashboard"|;
  }

  // ---------------------------------------------------------------------------
  // Loading the profile and the admin flag.

  /** `userProfile` and `isAdmin`. */
  datatype NavState = NavState(userProfile: Option<Profile>, isAdmin: bool)

  function InitialNavState(): NavState
  {
    NavState(None, false)
  }

  /** `.eq(column, value).single()`: data only when exactly one row matches. */
  function Single<T>(rows: seq<T>, matches: T -> bool): (r: Option<T>)
    ensures r.Some? ==> r.value in rows && matches(r.value)
    ensures r.Some? <==> Count(rows, matches) == 1
  {
    var hits := Filter(rows, matches);
    if |hits| == 1 then Some(hits[0]) else None
  }

  /** `getUserProfile`: `auth` is the user fetch, `profiles` the `profiles` table
      with `profilesOk` whether its query succeeds, `admins` the `user_id` column
      of the `admins` table with `adminsOk` whether its query succeeds. Any
      failure before the admin lookup leaves the state as it was; a failed
      admin lookup reads as "not an administrator". */
  function LoadNav(state: NavState, auth: Auth, profiles: seq<Profile>, profilesOk: bool,
                   admins: seq<UserId>, adminsOk: bool): (r: NavState)
    ensures !auth.SignedIn? ==> r == state
    ensures auth.SignedIn? && (!profilesOk || Count(profiles, (p: Profile) => p.id == auth.id) != 1) ==> r == state
    ensures auth.SignedIn? && profilesOk && Count(profiles, (p: Profile) => p.id == auth.id) == 1 ==>
      && r.userProfile.Some? && r.userProfile.value in profiles && r.userProfile.value.id == auth.id
      && (r.isAdmin <==> adminsOk && Count(admins, (a: UserId) => a == auth.id) == 1)
  {
    match auth
    case SignedIn(u) =>
      var profile := Single(profiles, (p: Profile) => p.id == u);
      if !profilesOk || profile.None? then state
      else
        var adminData := if adminsOk then Single(admins, (a: UserId) => a == u) else None;
        NavState(profile, adminData.Some?)
    case _ => state
  }

  /** Starting from the initial state, the admin links appear only for a user
      with an `admins` row, and never when the user or profile fetch fails. */
  lemma AdminOnlyWithAdminRow(auth: Auth, profiles: seq<Profile>, profilesOk: bool,
                              admins: seq<UserId>, adminsOk: bool)
    ensures
      var r := LoadNav(InitialNavState(), auth, profiles, profilesOk, admins, adminsOk);
      r.isAdmin ==> auth.SignedIn? && profilesOk && auth.id in admins
  {
    var r := LoadNav(InitialNavState(), auth, profiles, profilesOk, admins, adminsOk);
    if r.isAdmin {
      var u := auth.id;
      var hits := Filter(admins, (a: UserId) => a == u);
      assert |hits| == 1;
      assert hits[0] in admins && hits[0] == u;
    }
  }
}
