/**
 * Route decisions of the application shell and the navigation bar: where
 * the bar is hidden, which tab is highlighted, and where a click on a tab
 * leads depending on whether a user is signed in.
 */
module Routes {
  import opened Strings

  /** `hideNavbar`: the sign-in, registration and preview pages have no navigation bar. */
  predicate HideNavbar(pathname: string) {
    pathname == "/login" || pathname == "/register" || StartsWith(pathname, "/preview")
  }

  /** The "Links" tab is highlighted on the home page. */
  predicate IsLinkActive(pathname: string) {
    pathname == "/"
  }

  /** The "Profile Details" tab is highlighted on the profile page. */
  predicate IsProfileActive(pathname: string) {
    pathname == "/profile"
  }

  /** Pages that need a signed-in user. */
  predicate IsGuarded(path: string) {
    path == "/profile" || path == "/preview"
  }

  /**
   * `handleNavigation`: the page pushed to the router. A signed-out visitor
   * asking for a guarded page is sent to the sign-in page instead; every
   * other request is followed as given.
   */
  function NavigationTarget(path: string, signedIn: bool): (target: string)
    ensures signedIn ==> target == path
    ensures !signedIn ==> !IsGuarded(target)
    ensures target != path ==> !signedIn && IsGuarded(path) && target == "/login"
  {
    if IsGuarded(path) && !signedIn then "/login" else path
  }

  /**
   * The hidden pages, stated as a set of paths: the two exact pages, and
   * `/preview` followed by anything at all.
   */
  lemma HiddenPathsExactly(pathname: string)
    ensures HideNavbar(pathname) <==>
      pathname == "/login" || pathname == "/register" || exists rest :: pathname == "/preview" + rest
  {
    if StartsWith(pathname, "/preview") {
      assert pathname == "/preview" + pathname[|"/preview"|..];
    }
    if exists rest :: pathname == "/preview" + rest {
      var rest :| pathname == "/preview" + rest;
      StartsWithAppend("/preview", rest);
    }
  }

  /** The bar is hidden on the sign-in and registration pages and under every preview path. */
  lemma NavbarHiddenPages(id: string)
    ensures HideNavbar("/login") && HideNavbar("/register")
    ensures HideNavbar("/preview") && HideNavbar("/preview/" + id)
  {
    StartsWithAppend("/preview", "");
    assert "/preview" + "" == "/preview";
    StartsWithAppend("/preview", "/" + id);
    assert "/preview" + ("/" + id) == "/preview/" + id;
  }

  /** The bar is shown on the home and profile pages, and on any path that merely shares a prefix with a hidden one. */
  lemma NavbarShownPages()
    ensures !HideNavbar("/") && !HideNavbar("/profile")
    ensures !HideNavbar("/prev") && !HideNavbar("/login/")
  {
    DiffersAt("/profile", "/preview", 3);
  }

  /** At most one tab is highlighted, and a highlighted tab is on a page that shows the bar. */
  lemma ActiveTabsConsistent(pathname: string)
    ensures !(IsLinkActive(pathname) && IsProfileActive(pathname))
    ensures IsLinkActive(pathname) || IsProfileActive(pathname) ==> !HideNavbar(pathname)
  {
    if IsProfileActive(pathname) {
      DiffersAt(pathname, "/preview", 3);
    }
  }
}
