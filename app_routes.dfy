// The route table and the landing decision on `/login`, which sends a user
// who is already signed in on to onboarding or the dashboard.
module AppRoutes {
  import opened Wrappers
  import opened AuthWrapper
  import opened Text

  /** The profile slot of the auth context: not yet read, read as null, or a row. */
  datatype ProfileSlot = NotRead | NullProfile | Present(profile: ProfileView)

  function PhoneOf(slot: ProfileSlot): Option<string>
  {
    if slot.Present? then slot.profile.phoneNumber else None
  }

  datatype Landing = Spinner | ToOnboarding | ToDashboard | ShowLogin

  /** AuthenticatedRedirect's render. */
  function LandingFor(loading: bool, checkingProfile: bool, user: Option<AuthUser>, profile: ProfileSlot): (l: Landing)
    ensures l == Spinner <==> loading || checkingProfile
    ensures l == ShowLogin <==> !loading && !checkingProfile && user.None?
    ensures l == ToOnboarding <==> !loading && !checkingProfile && user.Some? && !Truthy(PhoneOf(profile))
    ensures l == ToDashboard <==> !loading && !checkingProfile && user.Some? && Truthy(PhoneOf(profile))
  {
    if loading || checkingProfile then Spinner
    else if user.Some? then
      if !Truthy(PhoneOf(profile)) then ToOnboarding else ToDashboard
    else ShowLogin
  }

  /** Its ensure-profile effect fires only on a profile read as null, not on one not read yet. */
  predicate EnsureProfileFiresHere(loading: bool, checkingProfile: bool, user: Option<AuthUser>, profile: ProfileSlot)
  {
    !loading && user.Some? && profile == NullProfile && !checkingProfile
  }

  /** The row upserted here carries no phone number. */
  datatype LandingUpsert = LandingUpsert(id: string, fullName: Option<string>, avatarUrl: Option<string>)

  function LandingUpsertRow(user: AuthUser): (r: LandingUpsert)
    ensures r.id == user.id && r.avatarUrl == user.metaAvatarUrl
    ensures r.fullName == EnsureProfileRow(user).fullName
  {
    LandingUpsert(user.id, OrElse(user.metaFullName, user.metaName), user.metaAvatarUrl)
  }

  datatype Page = DashboardPage | ProfilePage | RulesPage | AdminPage

  datatype RouteElement =
    | LandingRoute
    | OnboardingRoute
    | NavigateTo(path: string)
    | Guarded(page: Page, requireAdmin: bool)
    | NotFound

  /** `path` without the slashes it ends with. */
  function TrimTrailingSlashes(path: string): (r: string)
    ensures |r| <= |path| && r == path[..|r|]
    ensures r == [] || r[|r| - 1] != '/'
    ensures forall k :: |r| <= k < |path| ==> path[k] == '/'
  {
    if path != [] && path[|path| - 1] == '/' then TrimTrailingSlashes(path[..|path| - 1]) else path
  }

  /** What a route pattern is compared with: the router's default matching ignores letter case and
      trailing slashes, and an empty path is the root. */
  function RoutePath(path: string): string
  {
    var t := ToLower(TrimTrailingSlashes(path));
    if t == "" then "/" else t
  }

  /** The route table, first match. */
  function RouteFor(path: string): (r: RouteElement)
    ensures RoutePath(path) == "/" ==> r == NavigateTo("/dashboard")
    ensures RoutePath(path) == "/admin" ==> r == Guarded(AdminPage, true)
    ensures r.Guarded? && r.requireAdmin ==> r.page == AdminPage
    ensures r.Guarded? <==> RoutePath(path) in {"/dashboard", "/profile", "/rules", "/admin"}
  {
    var p := RoutePath(path);
    if p == "/login" then LandingRoute
    else if p == "/onboarding" then OnboardingRoute
    else if p == "/" then NavigateTo("/dashboard")
    else if p == "/dashboard" then Guarded(DashboardPage, false)
    else if p == "/profile" then Guarded(ProfilePage, false)
    else if p == "/rules" then Guarded(RulesPage, false)
    else if p == "/admin" then Guarded(AdminPage, true)
    else NotFound
  }

  /** Case and trailing slashes do not matter: `/Admin` and `/admin/` reach the admin page, behind the admin guard. */
  lemma AdminSpellingsGuarded(rest: string)
    requires forall k :: 0 <= k < |rest| ==> rest[k] == '/'
    ensures RouteFor("/Admin" + rest) == Guarded(AdminPage, true)
    ensures RouteFor("/admin" + rest) == Guarded(AdminPage, true)
  {
    TrailingSlashesDropped("/Admin", rest);
    TrailingSlashesDropped("/admin", rest);
    assert ToLower("/Admin") == "/admin";
    assert ToLower("/admin") == "/admin";
  }

  lemma {:induction false} TrailingSlashesDropped(p: string, rest: string)
    requires p != [] && p[|p| - 1] != '/'
    requires forall k :: 0 <= k < |rest| ==> rest[k] == '/'
    ensures TrimTrailingSlashes(p + rest) == p
    decreases |rest|
  {
    if rest != [] {
      var shorter := rest[..|rest| - 1];
      assert (p + rest)[..|p + rest| - 1] == p + shorter;
      TrailingSlashesDropped(p, shorter);
    } else {
      assert p + rest == p;
    }
  }

  /** A complete non-admin who opens `/admin` is sent to the dashboard. */
  lemma AdminPageTurnsAwayNonAdmins(user: AuthUser, profile: ProfileView)
    requires HasVerifiedPhone(user) && HasFullName(profile)
    ensures RouteFor("/admin").Guarded? && RouteFor("/admin").requireAdmin
    ensures RedirectDecision(false, false, Some(user), Some(profile), "/admin", RouteFor("/admin").requireAdmin, false)
         == Redirect("/dashboard")
  {
  }
}
