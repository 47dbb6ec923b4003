// The bottom navigation bar: which tab is highlighted for the current path,
// and which tabs are shown.
module BottomNav {
  import opened Text

  /** isActive: the home tab covers `/` and `/dashboard`; any other tab is a plain prefix test. */
  predicate IsActive(pathname: string, href: string)
  {
    if href == "/" then pathname == "/" || pathname == "/dashboard"
    else StartsWith(pathname, href)
  }

  /** Every tab is active on its own path. */
  lemma ActiveOnItself(href: string)
    ensures IsActive(href, href)
  {
  }

  /** The home tab is active exactly on `/` and `/dashboard`. */
  lemma HomeActiveIff(pathname: string)
    ensures IsActive(pathname, "/") <==> pathname == "/" || pathname == "/dashboard"
  {
  }

  /** Deeper paths keep their tab active. */
  lemma ActiveBelow(pathname: string, href: string, rest: string)
    requires href != "/"
    requires IsActive(pathname, href)
    ensures IsActive(pathname + rest, href)
  {
    assert (pathname + rest)[..|href|] == pathname[..|href|];
  }

  /** The prefix test is textual: any path that starts with `/profile`, such as `/profileX`, lights the profile tab. */
  lemma PrefixQuirk()
    ensures forall rest :: IsActive("/profile" + rest, "/profile")
    ensures !IsActive("/dashboard", "/profile")
  {
    forall rest ensures IsActive("/profile" + rest, "/profile") {
      assert ("/profile" + rest)[..|"/profile"|] == "/profile";
    }
    assert "/dashboard"[..|"/profile"|][1] == 'd';
  }

  datatype Tab = HomeTab | ProfileTab | RulesTab | AdminTab

  function Href(t: Tab): string
  {
    match t
    case HomeTab => "/"
    case ProfileTab => "/profile"
    case RulesTab => "/rules"
    case AdminTab => "/admin"
  }

  /** The tabs rendered, in order; the admin tab only for admins. */
  function Tabs(isAdmin: bool): (r: seq<Tab>)
    ensures |r| == if isAdmin then 4 else 3
    ensures AdminTab in r <==> isAdmin
    ensures r[..3] == [HomeTab, ProfileTab, RulesTab]
  {
    [HomeTab, ProfileTab, RulesTab] + (if isAdmin then [AdminTab] else [])
  }

  /** On the dashboard only the home tab is highlighted. */
  lemma DashboardHighlightsHome(isAdmin: bool)
    ensures forall t :: t in Tabs(isAdmin) ==> (IsActive("/dashboard", Href(t)) <==> t == HomeTab)
  {
    assert "/dashboard"[..|"/profile"|][1] == 'd';
    assert "/dashboard"[..|"/rules"|][1] == 'd';
    assert "/dashboard"[..|"/admin"|][1] == 'd';
  }
}
