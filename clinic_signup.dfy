/** The independent-clinic sign-up screen: where a signed-in profile is sent, and the sign-up it submits. */
module ClinicSignupPage {
  import opened Util
  import opened Schema
  import opened ClientTypes
  import opened Browser
  import opened AuthContext
  import AppRoutes

  /**
   * Where the screen sends a profile: an independent clinic to billing, a managed clinic to the
   * clinic dashboard, an agency admin to the agency dashboard; nowhere without one.
   */
  function Landing(profile: Option<Profile>): (r: Option<string>)
    ensures profile.None? <==> r.None?
    ensures profile.Some? && profile.value.role == IndependentClinic ==> r == Some("/clinic/billing")
    ensures profile.Some? && profile.value.role == ManagedClinic ==> r == Some("/clinic")
    ensures profile.Some? && profile.value.role == AgencyAdmin ==> r == Some("/agency")
  {
    if profile.None? then None
    else match profile.value.role
      case IndependentClinic => Some("/clinic/billing")
      case ManagedClinic => Some("/clinic")
      case AgencyAdmin => Some("/agency")
  }

  /** Every profile is sent to a screen that admits its role; a new independent clinic lands on billing. */
  lemma {:induction false} LandingAdmitsRole(p: Profile)
    ensures AppRoutes.VisitPath(Landing(Some(p)).value, false, Some(p)).display.Show?
  {
    var path := Landing(Some(p)).value;
    if p.role == IndependentClinic {
      assert AppRoutes.Matches(path, "/clinic/billing");
      AppRoutes.ClinicBillingRoute(path);
    } else if p.role == ManagedClinic {
      assert AppRoutes.Matches(path, "/clinic");
      AppRoutes.ClinicDashboardRoute(path);
    } else {
      assert AppRoutes.IsAgencyPath(path);
      AppRoutes.AgencyRoutes(path);
    }
  }

  class ClinicSignup {
    var submitting: bool
    const nav: Location
    const auth: AuthProvider

    constructor (nav: Location, auth: AuthProvider)
      ensures this.nav == nav && this.auth == auth
      ensures !submitting
    {
      this.nav := nav;
      this.auth := auth;
      submitting := false;
    }

    /** The effect run when the profile changes: three independent checks, of which at most one applies. */
    method OnProfileChange()
      modifies nav
      ensures nav.path == Landing(auth.profile).GetOr(old(nav.path))
    {
      var profile := auth.profile;
      if profile.Some? && profile.value.role == IndependentClinic {
        nav.SetLocation("/clinic/billing");
      }
      if profile.Some? && profile.value.role == ManagedClinic {
        nav.SetLocation("/clinic");
      }
      if profile.Some? && profile.value.role == AgencyAdmin {
        nav.SetLocation("/agency");
      }
    }

    /** Submitting passes the entered name, email and password to the independent-clinic sign-up. */
    method HandleSubmit(name: string, email: string, password: string, backend: Backend<SignUpReply>,
                        freshId: string, freshClinicId: string)
      requires auth.Mirrored()
      modifies this, auth, auth.storage
      ensures auth.State() == SignUpOutcome(old(auth.State()), email, backend, freshId, freshClinicId)
      ensures auth.Mirrored()
      ensures !submitting
    {
      submitting := true;
      auth.SignUpIndependentClinic(name, email, password, backend, freshId, freshClinicId);
      submitting := false;
    }
  }
}
