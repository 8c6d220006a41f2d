/**
 * The client's route table and the `RequireRole` wrapper: which screen a path shows, which roles a
 * protected screen admits, and the three-way decision (loader, redirect, render) it takes.
 */
module AppRoutes {
  import opened Util
  import opened Schema
  import opened ClientTypes
  import Access

  datatype Screen =
    | Landing | AgencyLoginScreen | ClinicLoginScreen | ClinicSignupScreen
    | AgencyDashboard | AgencyBilling | AgencySettings
    | ClinicBilling | ClinicDashboard | NotFound

  /** A route either shows its screen to anyone, or wraps it in `RequireRole`. */
  datatype Route =
    | Open(screen: Screen)
    | Protected(allowedRoles: seq<Role>, redirect: string, screen: Screen)

  /** What `RequireRole` shows: the access-check loader, nothing, or its child screen. */
  datatype View = Loader | Nothing | Children

  /** The element rendered and the navigation its effect performs, if any. */
  datatype Gate = Gate(view: View, navigate: Option<string>)

  /** What visiting a path yields: the element shown and the navigation triggered. */
  datatype Display = ShowLoader | ShowNothing | Show(screen: Screen)
  datatype Visit = Visit(display: Display, navigate: Option<string>)

  /**
   * `p` reads as `q` once the ASCII letters of both are lower-cased, position by position (equal
   * texts are taken at once, which spares comparing them letter by letter).
   */
  predicate FoldsTo(p: string, q: string)
    decreases |p|
  {
    p == q || (|p| == |q| && |p| > 0 && Lower(p[0]) == Lower(q[0]) && FoldsTo(p[1..], q[1..]))
  }

  /**
   * A route's static pattern accepts a path equal to it up to the case of ASCII letters, with at
   * most one trailing `/` (the router compiles `/clinic` to a case-insensitive `^/clinic/?$`).
   */
  predicate Matches(path: string, pattern: string) {
    FoldsTo(path, pattern) || FoldsTo(path, pattern + "/")
  }

  /** The path is spelled exactly as the pattern, with at most one trailing `/`. */
  predicate SpelledAs(path: string, pattern: string) {
    path == pattern || path == pattern + "/"
  }

  /** Texts that fold to each other have the same length and the same letters up to case. */
  lemma {:induction false} FoldsToLetters(p: string, q: string)
    requires FoldsTo(p, q)
    ensures |p| == |q|
    ensures forall i :: 0 <= i < |p| ==> Lower(p[i]) == Lower(q[i])
    decreases |p|
  {
    if p != q {
      FoldsToLetters(p[1..], q[1..]);
      forall i | 1 <= i < |p| ensures Lower(p[i]) == Lower(q[i]) {
        assert p[1..][i - 1] == p[i] && q[1..][i - 1] == q[i];
      }
    }
  }

  /** A path a pattern accepts has the pattern's length, or one more, and the pattern's letters up to case. */
  lemma {:induction false} MatchLetters(path: string, pattern: string)
    ensures Matches(path, pattern) ==>
      && (|path| == |pattern| || |path| == |pattern| + 1)
      && forall i :: 0 <= i < |pattern| ==> Lower(path[i]) == Lower(pattern[i])
  {
    if FoldsTo(path, pattern) {
      FoldsToLetters(path, pattern);
    } else if FoldsTo(path, pattern + "/") {
      FoldsToLetters(path, pattern + "/");
      forall i | 0 <= i < |pattern| ensures Lower(path[i]) == Lower(pattern[i]) {
        assert (pattern + "/")[i] == pattern[i];
      }
    }
  }

  /** The paths of the landing page and the three sign-in screens, which anyone may see. */
  predicate IsOpenPath(path: string) {
    Matches(path, "/") || Matches(path, "/auth/agency-login") || Matches(path, "/auth/clinic-login") || Matches(path, "/auth/clinic-signup")
  }

  /** A clinic path spelled as in the table starts with `/clinic`, and with `/clinic/billing` exactly on the billing screen. */
  lemma {:induction false} ClinicTablePathPrefixes(path: string)
    requires SpelledAs(path, "/clinic/billing") || SpelledAs(path, "/clinic")
    ensures StartsWith(path, "/clinic")
    ensures StartsWith(path, "/clinic/billing") <==> SpelledAs(path, "/clinic/billing")
  {
    if SpelledAs(path, "/clinic/billing") {
      assert path[..15] == "/clinic/billing";
      assert path[..7] == "/clinic";
    } else {
      assert path[..7] == "/clinic";
      assert |path| < 15;
    }
  }

  /** The protected patterns accept none of the paths the open patterns before them accept, nor each other's. */
  lemma {:induction false} PatternsDisjoint(path: string)
    ensures IsAgencyPath(path) || Matches(path, "/clinic/billing") || Matches(path, "/clinic") ==> !IsOpenPath(path)
    ensures Matches(path, "/clinic/billing") || Matches(path, "/clinic") ==> !IsAgencyPath(path)
    ensures Matches(path, "/clinic") ==> !Matches(path, "/clinic/billing")
  {
    MatchLetters(path, "/");
    MatchLetters(path, "/auth/agency-login");
    MatchLetters(path, "/auth/clinic-login");
    MatchLetters(path, "/auth/clinic-signup");
    MatchLetters(path, "/agency");
    MatchLetters(path, "/agency/billing");
    MatchLetters(path, "/agency/settings");
    MatchLetters(path, "/clinic/billing");
    MatchLetters(path, "/clinic");
    if IsAgencyPath(path) {
      assert |path| >= 7 && Lower(path[2]) == 'g';
    } else if Matches(path, "/clinic/billing") || Matches(path, "/clinic") {
      assert |path| >= 7 && Lower(path[1]) == 'c';
      if Matches(path, "/clinic") {
        assert |path| <= 8;
      }
    }
  }

  /**
   * The switch: the first route whose pattern accepts the path wins, in the order the routes are
   * declared; an unmatched path falls through to the catch-all NotFound route.
   */
  function Match(path: string): (r: Route)
    ensures r.Protected? <==> IsAgencyPath(path) || Matches(path, "/clinic/billing") || Matches(path, "/clinic")
    ensures !r.Protected? && !IsOpenPath(path) ==> r == Open(NotFound)
  {
    PatternsDisjoint(path);
    if Matches(path, "/") then Open(Landing)
    else if Matches(path, "/auth/agency-login") then Open(AgencyLoginScreen)
    else if Matches(path, "/auth/clinic-login") then Open(ClinicLoginScreen)
    else if Matches(path, "/auth/clinic-signup") then Open(ClinicSignupScreen)
    else if Matches(path, "/agency") then Protected([AgencyAdmin], "/auth/agency-login", AgencyDashboard)
    else if Matches(path, "/agency/billing") then Protected([AgencyAdmin], "/auth/agency-login", AgencyBilling)
    else if Matches(path, "/agency/settings") then Protected([AgencyAdmin], "/auth/agency-login", AgencySettings)
    else if Matches(path, "/clinic/billing") then Protected([IndependentClinic], "/clinic", ClinicBilling)
    else if Matches(path, "/clinic") then Protected([IndependentClinic, ManagedClinic], "/auth/clinic-login", ClinicDashboard)
    else if Matches(path, "/404") then Open(NotFound)
    else Open(NotFound)
  }

  /** The role of the signed-in profile, if any. */
  function RoleOf(profile: Option<Profile>): Option<Role> {
    if profile.Some? then Some(profile.value.role) else None
  }

  /** `RequireRole`: wait while loading, then either render the child or redirect and render nothing. */
  function RequireRole(loading: bool, profile: Option<Profile>, allowedRoles: seq<Role>, redirect: string): (r: Gate)
    ensures loading ==> r == Gate(Loader, None)
    ensures !loading ==> (r.view == Children <==> profile.Some? && profile.value.role in allowedRoles)
    ensures !loading ==> (r.navigate == Some(redirect) <==> r.view == Nothing)
    ensures r.view != Nothing ==> r.navigate.None?
  {
    if loading then Gate(Loader, None)
    else if profile.None? || !(profile.value.role in allowedRoles) then Gate(Nothing, Some(redirect))
    else Gate(Children, None)
  }

  /** Visiting `path` with the current session state. */
  function VisitPath(path: string, loading: bool, profile: Option<Profile>): Visit {
    match Match(path)
    case Open(screen) => Visit(Show(screen), None)
    case Protected(allowed, redirect, screen) =>
      var g := RequireRole(loading, profile, allowed, redirect);
      match g.view
      case Loader => Visit(ShowLoader, g.navigate)
      case Nothing => Visit(ShowNothing, g.navigate)
      case Children => Visit(Show(screen), g.navigate)
  }

  /** The protected paths of the table. */
  predicate IsAgencyPath(path: string) {
    Matches(path, "/agency") || Matches(path, "/agency/billing") || Matches(path, "/agency/settings")
  }

  /** The three agency screens admit only an agency admin and send anyone else to the agency login. */
  lemma {:induction false} AgencyRoutes(path: string)
    requires IsAgencyPath(path)
    ensures Match(path).Protected?
    ensures Match(path).allowedRoles == [AgencyAdmin]
    ensures Match(path).redirect == "/auth/agency-login"
  {
    PatternsDisjoint(path);
  }

  /** Clinic billing admits only an independent clinic and sends anyone else to `/clinic`. */
  lemma {:induction false} ClinicBillingRoute(path: string)
    requires Matches(path, "/clinic/billing")
    ensures Match(path) == Protected([IndependentClinic], "/clinic", ClinicBilling)
  {
    PatternsDisjoint(path);
  }

  /** The clinic dashboard admits both clinic roles and sends anyone else to the clinic login. */
  lemma {:induction false} ClinicDashboardRoute(path: string)
    requires Matches(path, "/clinic")
    ensures Match(path) == Protected([IndependentClinic, ManagedClinic], "/auth/clinic-login", ClinicDashboard)
  {
    PatternsDisjoint(path);
  }

  /** While the session is loading, a protected path shows only the loader and navigates nowhere. */
  lemma {:induction false} LoadingShowsOnlyLoader(path: string, profile: Option<Profile>)
    requires Match(path).Protected?
    ensures VisitPath(path, true, profile) == Visit(ShowLoader, None)
  {
  }

  /** Once loaded, a protected path either shows its screen to an admitted role or redirects and shows nothing. */
  lemma {:induction false} LoadedProtectedPath(path: string, profile: Option<Profile>)
    requires Match(path).Protected?
    ensures var route := Match(path);
      if profile.Some? && profile.value.role in route.allowedRoles
      then VisitPath(path, false, profile) == Visit(Show(route.screen), None)
      else VisitPath(path, false, profile) == Visit(ShowNothing, Some(route.redirect))
  {
  }

  /**
   * The route table and the guard functions agree on who is admitted, on every protected path of
   * the table and for every session; on the clinic screens this needs the path spelled as in the
   * table, since the clinic guard compares prefixes case-sensitively while the router does not.
   */
  lemma {:induction false} TableAgreesWithGuardsOnAdmission(path: string, profile: Option<Profile>)
    requires Match(path).Protected?
    ensures IsAgencyPath(path) ==>
      VisitPath(path, false, profile).display.Show? == Access.GuardAgencyRoute(RoleOf(profile)).allowed
    ensures !IsAgencyPath(path) && (SpelledAs(path, "/clinic/billing") || SpelledAs(path, "/clinic")) ==>
      VisitPath(path, false, profile).display.Show? == Access.GuardClinicRoute(path, RoleOf(profile)).allowed
  {
    PatternsDisjoint(path);
    if !IsAgencyPath(path) && (SpelledAs(path, "/clinic/billing") || SpelledAs(path, "/clinic")) {
      ClinicTablePathPrefixes(path);
      assert SpelledAs(path, "/clinic/billing") ==> Matches(path, "/clinic/billing");
    }
  }

  /**
   * The router accepts `/CLINIC` for the clinic dashboard and refuses an agency admin there, while
   * the clinic guard, which looks for the lower-case prefix, lets the agency admin through.
   */
  lemma {:induction false} UpperCaseClinicPathEscapesGuard()
    ensures Match("/CLINIC").Protected?
    ensures VisitPath("/CLINIC", false, Some(Profile("u", None, AgencyAdmin, None, None))).display == ShowNothing
    ensures Access.GuardClinicRoute("/CLINIC", Some(AgencyAdmin)).allowed
  {
    UpperCaseClinicPath();
    ClinicDashboardRoute("/CLINIC");
  }

  /** `/CLINIC` matches the clinic dashboard's pattern but does not start with its lower-case prefixes. */
  lemma {:induction false} UpperCaseClinicPath()
    ensures Matches("/CLINIC", "/clinic")
    ensures !StartsWith("/CLINIC", "/clinic") && !StartsWith("/CLINIC", "/clinic/billing")
  {
    assert FoldsTo("/CLINIC", "/clinic");
    assert "/CLINIC"[1] != "/clinic"[1];
  }

  /** On the agency screens the table and the agency guard also agree on where a refused visitor goes. */
  lemma {:induction false} AgencyRedirectsAgree(path: string, profile: Option<Profile>)
    requires IsAgencyPath(path)
    ensures VisitPath(path, false, profile).navigate == Access.GuardAgencyRoute(RoleOf(profile)).redirect
  {
  }

  /**
   * Where the table and the clinic guard disagree on the redirect: an agency admin on the clinic
   * dashboard goes to the clinic login by the table but to `/` by the guard, and a visitor with no
   * profile on clinic billing goes to `/clinic` by the table but to the clinic login by the guard.
   */
  lemma {:induction false} ClinicRedirectsDisagree(dashboard: string, billing: string)
    requires SpelledAs(dashboard, "/clinic")
    requires SpelledAs(billing, "/clinic/billing")
    ensures VisitPath(dashboard, false, Some(Profile("u", None, AgencyAdmin, None, None))).navigate == Some("/auth/clinic-login")
    ensures Access.GuardClinicRoute(dashboard, Some(AgencyAdmin)).redirect == Some("/")
    ensures VisitPath(billing, false, None).navigate == Some("/clinic")
    ensures Access.GuardClinicRoute(billing, None).redirect == Some("/auth/clinic-login")
  {
    assert Matches(dashboard, "/clinic") && Matches(billing, "/clinic/billing");
    ClinicDashboardRoute(dashboard);
    ClinicBillingRoute(billing);
    ClinicTablePathPrefixes(dashboard);
    ClinicTablePathPrefixes(billing);
  }
}
