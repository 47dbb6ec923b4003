// The guard around every signed-in page: it creates a missing profile, copies
// a verified phone into the profile, sends incomplete users to the welcome
// screen and non-admins away from admin pages, and holds back the page until
// all of that has settled.
module AuthWrapper {
  import opened Wrappers
  import opened Text

  /** The signed-in user as the auth context gives it; metadata fields may be missing. */
  datatype AuthUser = AuthUser(
    id: string, phone: Option<string>,
    metaFullName: Option<string>, metaName: Option<string>, metaAvatarUrl: Option<string>)

  /** The profile columns the guard reads. */
  datatype ProfileView = ProfileView(fullName: Option<string>, phoneNumber: Option<string>)

  /** A present, non-empty optional text. */
  predicate Truthy(s: Option<string>)
  {
    s.Some? && s.value != ""
  }

  predicate HasVerifiedPhone(user: AuthUser)
  {
    Truthy(user.phone)
  }

  predicate HasFullName(profile: ProfileView)
  {
    profile.fullName.Some? && Trim(profile.fullName.value) != ""
  }

  /** What the redirect effect does: return early, clear `redirecting`, or redirect. */
  datatype Effect = Skip | Settle | Redirect(to: string)

  /** The redirect effect's decision. */
  function RedirectDecision(loading: bool, checkingProfile: bool, user: Option<AuthUser>, profile: Option<ProfileView>,
                            pathname: string, requireAdmin: bool, isAdmin: bool): (e: Effect)
    ensures loading || checkingProfile ==> e == Skip
    ensures e == Skip ==> loading || checkingProfile
    ensures !loading && !checkingProfile && user.None? ==> e == Redirect("/login")
    ensures !loading && !checkingProfile && user.Some? && profile.None? ==> e == Settle
    ensures e == Redirect("/welcome") <==>
      !loading && !checkingProfile && user.Some? && profile.Some?
      && !(HasVerifiedPhone(user.value) && HasFullName(profile.value)) && pathname != "/welcome"
    ensures e == Redirect("/dashboard") <==>
      !loading && !checkingProfile && user.Some? && profile.Some?
      && HasVerifiedPhone(user.value) && HasFullName(profile.value)
      && (pathname == "/welcome" || (requireAdmin && !isAdmin))
    ensures e.Redirect? ==> e.to in {"/login", "/welcome", "/dashboard"}
  {
    if loading || checkingProfile then Skip
    else if user.None? then Redirect("/login")
    else if profile.None? then Settle
    else if !HasVerifiedPhone(user.value) || !HasFullName(profile.value) then
      if pathname != "/welcome" then Redirect("/welcome") else Settle
    else if pathname == "/welcome" then Redirect("/dashboard")
    else if requireAdmin && !isAdmin then Redirect("/dashboard")
    else Settle
  }

  /** The redirect targets are stable: arriving at the target does not redirect again. */
  lemma RedirectsSettle(user: AuthUser, profile: ProfileView, pathname: string, requireAdmin: bool, isAdmin: bool)
    ensures var e := RedirectDecision(false, false, Some(user), Some(profile), pathname, requireAdmin, isAdmin);
      e.Redirect? ==> RedirectDecision(false, false, Some(user), Some(profile), e.to, false, isAdmin) == Settle
  {
  }

  /** The ensure-profile effect fires only for a signed-in user whose profile is missing. */
  predicate EnsureProfileFires(loading: bool, checkingProfile: bool, user: Option<AuthUser>, profile: Option<ProfileView>)
  {
    !loading && user.Some? && profile.None? && !checkingProfile
  }

  /** The row the guard upserts for a new user. */
  datatype ProfileUpsert = ProfileUpsert(id: string, fullName: Option<string>, avatarUrl: Option<string>, phoneNumber: Option<string>)

  /** `a ?? b`: only a missing value falls through. */
  function OrElse(a: Option<string>, b: Option<string>): (r: Option<string>)
    ensures a.Some? ==> r == a
    ensures a.None? ==> r == b
  {
    if a.Some? then a else b
  }

  function EnsureProfileRow(user: AuthUser): (r: ProfileUpsert)
    ensures r.id == user.id && r.avatarUrl == user.metaAvatarUrl && r.phoneNumber == user.phone
    ensures r.fullName == OrElse(user.metaFullName, user.metaName)
  {
    ProfileUpsert(user.id, OrElse(user.metaFullName, user.metaName), user.metaAvatarUrl, user.phone)
  }

  /** The phone-sync effect: the auth phone is copied when the profile has none. */
  predicate PhoneSyncFires(user: Option<AuthUser>, profile: Option<ProfileView>)
  {
    user.Some? && profile.Some? && HasVerifiedPhone(user.value) && !Truthy(profile.value.phoneNumber)
  }

  /** Children render only when nothing is pending and a profile exists. */
  predicate RendersChildren(loading: bool, checkingProfile: bool, redirecting: bool, profile: Option<ProfileView>)
  {
    !loading && !checkingProfile && !redirecting && profile.Some?
  }

  class Guard {
    var checkingProfile: bool
    var redirecting: bool

    constructor ()
      ensures !checkingProfile && !redirecting
    {
      checkingProfile := false;
      redirecting := false;
    }

    /** The ensure-profile effect starting: the row to upsert, if it fires. */
    method StartEnsureProfile(loading: bool, user: Option<AuthUser>, profile: Option<ProfileView>) returns (row: Option<ProfileUpsert>)
      modifies this`checkingProfile
      ensures row.Some? <==> EnsureProfileFires(loading, old(checkingProfile), user, profile)
      ensures row.Some? ==> row.value == EnsureProfileRow(user.value) && checkingProfile
      ensures row.None? ==> checkingProfile == old(checkingProfile)
    {
      if EnsureProfileFires(loading, checkingProfile, user, profile) {
        checkingProfile := true;
        row := Some(EnsureProfileRow(user.value));
      } else {
        row := None;
      }
    }

    /** The upsert finished, whether or not it succeeded. */
    method EnsureProfileDone()
      modifies this`checkingProfile
      ensures !checkingProfile
    {
      checkingProfile := false;
    }

    /** The redirect effect: the path navigated to, if any. */
    method RunRedirectEffect(loading: bool, user: Option<AuthUser>, profile: Option<ProfileView>,
                             pathname: string, requireAdmin: bool, isAdmin: bool) returns (navigate: Option<string>)
      modifies this`redirecting
      ensures var e := RedirectDecision(loading, checkingProfile, user, profile, pathname, requireAdmin, isAdmin);
        (e == Skip ==> redirecting == old(redirecting) && navigate.None?)
        && (e == Settle ==> !redirecting && navigate.None?)
        && (e.Redirect? ==> redirecting && navigate == Some(e.to))
    {
      var e := RedirectDecision(loading, checkingProfile, user, profile, pathname, requireAdmin, isAdmin);
      match e {
        case Skip => navigate := None;
        case Settle =>
          redirecting := false;
          navigate := None;
        case Redirect(to) =>
          redirecting := true;
          navigate := Some(to);
      }
    }

    predicate ShowsChildren(loading: bool, profile: Option<ProfileView>)
      reads this
    {
      RendersChildren(loading, checkingProfile, redirecting, profile)
    }
  }

  /** A complete user on an allowed page sees it once the effect has run. */
  method CompleteUserSeesPage(g: Guard, user: AuthUser, profile: ProfileView, pathname: string, requireAdmin: bool, isAdmin: bool)
    modifies g
    requires !g.checkingProfile
    requires HasVerifiedPhone(user) && HasFullName(profile)
    requires pathname != "/welcome" && (!requireAdmin || isAdmin)
    ensures g.ShowsChildren(false, Some(profile))
  {
    var nav := g.RunRedirectEffect(false, Some(user), Some(profile), pathname, requireAdmin, isAdmin);
  }
}
