// The navigation link component: exact or prefix matching of the current path,
// and the extra class name an active link gets.
module NavLink {
  import opened Wrappers
  import opened Text

  /** `exact ? pathname === href : pathname?.startsWith(href)`; the pathname may be unknown. */
  predicate IsActive(pathname: Option<string>, href: string, exact: bool)
  {
    pathname.Some? && (if exact then pathname.value == href else StartsWith(pathname.value, href))
  }

  /** With `exact` the link is active iff the path is the href, without it iff the path starts with it. */
  lemma ActiveIff(pathname: string, href: string)
    ensures IsActive(Some(pathname), href, true) <==> pathname == href
    ensures IsActive(Some(pathname), href, false) <==> StartsWith(pathname, href)
  {
  }

  /** Exact-active implies prefix-active. */
  lemma ExactImpliesPrefix(pathname: Option<string>, href: string)
    requires IsActive(pathname, href, true)
    ensures IsActive(pathname, href, false)
  {
    assert pathname.value[..|href|] == pathname.value;
  }

  /** `cn(className, isActive && activeClassName)`: falsy entries are dropped. */
  function ClassNames(className: Option<string>, activeClassName: Option<string>, active: bool): (r: seq<string>)
    ensures forall c :: c in r ==> c != ""
    ensures activeClassName.Some? && activeClassName.value != "" && activeClassName.value !in r ==> !active
    ensures !active ==> r == (if className.Some? && className.value != "" then [className.value] else [])
    ensures active && activeClassName.Some? && activeClassName.value != "" ==>
      r == (if className.Some? && className.value != "" then [className.value] else []) + [activeClassName.value]
  {
    var base := if className.Some? && className.value != "" then [className.value] else [];
    if active && activeClassName.Some? && activeClassName.value != "" then base + [activeClassName.value]
    else base
  }
}
