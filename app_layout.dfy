/** The page frame: public pages get the top navigation bar and the footer, signed-in users
    on every other page get the sidebar, and the main area's padding follows the sidebar. */
module AppLayout {
  import opened Paths

  const PublicPaths: seq<string> := ["/", "/login", "/signup", "/about", "/contact", "/terms", "/privacy", "/support"]

  function IsPublic(pathname: string): bool {
    pathname in PublicPaths
  }

  datatype Frame = Frame(showSidebar: bool, showNavbar: bool, showFooter: bool, mainPadding: string)

  /** What the layout renders around a page, given whether a user is signed in and whether
      the sidebar is collapsed. */
  function Layout(pathname: string, signedIn: bool, isCollapsed: bool): Frame {
    var isPublic := IsPublic(pathname);
    var showSidebar := signedIn && !isPublic;
    Frame(
      showSidebar,
      isPublic,
      isPublic,
      if showSidebar then (if isCollapsed then "md:pl-20 pt-0" else "md:pl-64 pt-6") else "pt")
  }

  /** The sidebar shows exactly for signed-in users off the public pages; the navigation
      bar and the footer exactly on the public pages, so never together with the sidebar. */
  lemma FrameParts(pathname: string, signedIn: bool, isCollapsed: bool)
    ensures var f := Layout(pathname, signedIn, isCollapsed);
      && (f.showSidebar <==> signedIn && pathname !in PublicPaths)
      && (f.showNavbar <==> pathname in PublicPaths)
      && f.showFooter == f.showNavbar
      && !(f.showSidebar && f.showNavbar)
  {
  }

  /** Main padding: narrow with a collapsed sidebar, wide with an open one, plain without. */
  lemma MainPadding(pathname: string, signedIn: bool, isCollapsed: bool)
    ensures var f := Layout(pathname, signedIn, isCollapsed);
      && (f.mainPadding == "md:pl-20 pt-0" <==> f.showSidebar && isCollapsed)
      && (f.mainPadding == "md:pl-64 pt-6" <==> f.showSidebar && !isCollapsed)
      && (f.mainPadding == "pt" <==> !f.showSidebar)
  {
  }

  /** Matching is exact: a path below a public page (other than "/") is not public. */
  lemma SubPathsAreNotPublic(p: string, rest: string)
    requires p in PublicPaths && p != "/"
    requires rest != [] && rest[0] == '/'
    ensures !IsPublic(p + rest)
  {
    assert forall q :: q in PublicPaths ==> TopLevel(q);
    SubPathIsNotTopLevel(p, rest);
  }

  /** The navigation bar's links, caption and target. */
  datatype NavLink = NavLink(caption: string, href: string)

  function NavbarLinks(signedIn: bool): seq<NavLink> {
    if signedIn then [NavLink("Dashboard", "/stories"), NavLink("Sign Out", "/auth/signout")]
    else [NavLink("Log In", "/login"), NavLink("Sign Up", "/signup")]
  }

  /** Signed-in users get the dashboard and sign-out; everyone else log-in and sign-up. */
  lemma NavbarLinksByUser(signedIn: bool)
    ensures |NavbarLinks(signedIn)| == 2
    ensures signedIn <==> NavbarLinks(signedIn)[0].href == "/stories"
    ensures !signedIn <==> NavbarLinks(signedIn)[1].href == "/signup"
  {
  }

  function Logo(theme: string): string {
    if theme == "light" then "/logo_purple.png" else "/img/logo_white.png"
  }
}
