/** frontend/App.tsx: which page a pathname shows, which admin pages need a session, and where the
    navbar and footer are drawn. */
module AppRoutes {
  import opened Js
  import opened Strings

  datatype Page =
    | HomePage | AboutPage | ServicesPage | PortfolioPage | ContactPage | TermsPage | PrivacyPage
    | LoginPage
    | DashboardPage | ServiceManagerPage | PortfolioManagerPage | TestimonialManagerPage
    | ContactManagerPage | DnaManagerPage | StoryManagerPage | LegalManagerPage | LogoManagerPage
    | NotFoundPage

  /** One `<Route>`: its path, its page and whether it sits under `ProtectedRoute` (and the admin
      layout). */
  datatype Route = Route(path: string, page: Page, protected: bool)

  /** The public pages, in declaration order. */
  const PublicRoutes: seq<Route> := [
    Route("/", HomePage, false),
    Route("/about", AboutPage, false),
    Route("/services", ServicesPage, false),
    Route("/portfolio", PortfolioPage, false),
    Route("/contact", ContactPage, false),
    Route("/terms", TermsPage, false),
    Route("/privacy", PrivacyPage, false)
  ]

  /** The admin console's sign-in page, reachable without a session. */
  const LoginRoute := Route(AdminPrefix + "/login", LoginPage, false)

  const AdminPrefix := "/admin"

  /** The sections of the admin console (each at '/admin/<section>'), in declaration order. */
  const AdminSections: seq<(string, Page)> := [
    ("dashboard", DashboardPage), ("services", ServiceManagerPage), ("portfolio", PortfolioManagerPage),
    ("testimonials", TestimonialManagerPage), ("contact", ContactManagerPage), ("dna", DnaManagerPage),
    ("story", StoryManagerPage), ("legal", LegalManagerPage), ("logo", LogoManagerPage)
  ]

  /** The protected routes, under `ProtectedRoute` and the admin layout. */
  function AdminRoutes(): (rs: seq<Route>)
    ensures |rs| == |AdminSections|
    ensures forall k :: 0 <= k < |rs| ==> rs[k] == Route(AdminPrefix + "/" + AdminSections[k].0, AdminSections[k].1, true)
  {
    seq(|AdminSections|, k requires 0 <= k < |AdminSections| => Route(AdminPrefix + "/" + AdminSections[k].0, AdminSections[k].1, true))
  }

  /** The route table, in declaration order. */
  function Routes(): (rs: seq<Route>)
    ensures |rs| == 17
  {
    PublicRoutes + [LoginRoute] + AdminRoutes()
  }

  /** The first route whose path is `pathname`, if any. */
  function Match(routes: seq<Route>, pathname: string): (r: Option<Route>)
    ensures r.Some? ==> r.value in routes && r.value.path == pathname
    ensures r.None? ==> forall x :: x in routes ==> x.path != pathname
  {
    if |routes| == 0 then None
    else if routes[0].path == pathname then Some(routes[0])
    else Match(routes[1..], pathname)
  }

  /** What a pathname shows: the page of the route with that path, and whether it is protected;
      the catch-all NotFound page when no route has it. */
  function Resolve(pathname: string): (r: (Page, bool))
    ensures (forall x :: x in Routes() ==> x.path != pathname) ==> r == (NotFoundPage, false)
    ensures (exists x :: x in Routes() && x.path == pathname) ==>
      exists x :: x in Routes() && x.path == pathname && r == (x.page, x.protected)
  {
    match Match(Routes(), pathname)
    case Some(route) => (route.page, route.protected)
    case None => (NotFoundPage, false)
  }

  /** `!pathname.startsWith('/admin')`: whether the navbar and the footer are drawn. */
  predicate ShowsChrome(pathname: string) {
    !StartsWith(pathname, AdminPrefix)
  }

  /** A cheap fingerprint of a path: its length and its last character. */
  function Fingerprint(path: string): (int, char) {
    (|path|, if |path| == 0 then ' ' else path[|path| - 1])
  }

  /** The position in `Routes()` of the route whose path has fingerprint `f`, or -1. */
  function FingerprintIndex(f: (int, char)): int {
    if f == (1, '/') then 0 else if f == (6, 't') then 1 else if f == (9, 's') then 2
    else if f == (10, 'o') then 3 else if f == (8, 't') then 4 else if f == (6, 's') then 5
    else if f == (8, 'y') then 6 else if f == (12, 'n') then 7 else if f == (16, 'd') then 8
    else if f == (15, 's') then 9 else if f == (16, 'o') then 10 else if f == (19, 's') then 11
    else if f == (14, 't') then 12 else if f == (10, 'a') then 13 else if f == (12, 'y') then 14
    else if f == (12, 'l') then 15 else if f == (11, 'o') then 16 else -1
  }

  lemma RouteFingerprint(i: nat)
    requires i < 17
    ensures FingerprintIndex(Fingerprint(Routes()[i].path)) == i
  {
    var rs := Routes();
    if i < 7 {
      assert rs[i] == PublicRoutes[i];
    } else if i == 7 {
      assert rs[i] == LoginRoute;
    } else {
      assert rs[i] == AdminRoutes()[i - 8];
    }
  }

  /** No two routes share a path. */
  lemma {:induction false} PathsDistinct(i: nat, j: nat)
    requires i < j < |Routes()|
    ensures Routes()[i].path != Routes()[j].path
  {
    RouteFingerprint(i);
    RouteFingerprint(j);
  }

  /** Every route's own path shows that route's page. */
  lemma {:induction false} EachPathShowsItsPage(i: nat)
    requires i < |Routes()|
    ensures Resolve(Routes()[i].path) == (Routes()[i].page, Routes()[i].protected)
  {
    var rs := Routes();
    var m := Match(rs, rs[i].path);
    assert rs[i] in rs;
    var k :| 0 <= k < |rs| && rs[k] == m.value;
    if k < i {
      PathsDistinct(k, i);
    } else if i < k {
      PathsDistinct(i, k);
    }
  }

  /** `StartsWith(p + rest, p)` */
  lemma PrefixStarts(p: string, rest: string)
    ensures StartsWith(p + rest, p)
  {
    assert (p + rest)[..|p|] == p;
  }

  /** A path too short for '/admin', or differing from it at the second or third character, does
      not start with it. */
  lemma NotAdminPath(path: string)
    requires |path| < 6 || path[1] != 'a' || path[2] != 'd'
    ensures ShowsChrome(path)
  {
  }

  /** A route is protected exactly when it is an admin page other than the login page; the public
      pages are drawn with the navbar and footer, every admin page (the login page included)
      without them. */
  lemma {:induction false} RouteKinds(i: nat)
    requires i < |Routes()|
    ensures Routes()[i].protected <==> StartsWith(Routes()[i].path, AdminPrefix + "/") && Routes()[i].path != LoginRoute.path
    ensures ShowsChrome(Routes()[i].path) <==> i < |PublicRoutes|
  {
    var rs := Routes();
    if i < 7 {
      assert rs[i] == PublicRoutes[i];
      NotAdminPath(rs[i].path);
    } else if i == 7 {
      assert rs[i] == LoginRoute;
      PrefixStarts(AdminPrefix, "/login");
    } else {
      var section := AdminSections[i - 8].0;
      assert rs[i] == AdminRoutes()[i - 8];
      assert rs[i].path == AdminPrefix + "/" + section == AdminPrefix + ("/" + section);
      PrefixStarts(AdminPrefix, "/" + section);
      PrefixStarts(AdminPrefix + "/", section);
      PathsDistinct(7, i);
    }
  }

  /** The prefix test is on characters, not path segments: '/administrator' has no chrome, and it
      is not a route, so it shows NotFound. */
  lemma AdministratorHasNoChrome()
    ensures !ShowsChrome("/administrator")
    ensures Resolve("/administrator").0 == NotFoundPage
  {
    assert "/administrator"[..6] == AdminPrefix;
    forall x | x in Routes() ensures x.path != "/administrator" {
      var i :| 0 <= i < |Routes()| && Routes()[i] == x;
      RouteFingerprint(i);
    }
  }
}
