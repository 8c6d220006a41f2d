/** The clinic login screen: where a signed-in profile is sent, and the managed-clinic sign-in it submits. */
module ClinicLoginPage {
  import opened Util
  import opened Schema
  import opened ClientTypes
  import opened Browser
  import opened AuthContext
  import AppRoutes

  const WrongPortalMessage: string := "Agency admins should use the agency portal. Redirecting now."

  /** Where the screen sends a profile: a clinic user to `/clinic`, an agency admin to `/agency`; nowhere without one. */
  function Landing(profile: Option<Profile>): (r: Option<string>)
    ensures profile.None? <==> r.None?
    ensures profile.Some? && profile.value.role.IsClinic() ==> r == Some("/clinic")
    ensures profile.Some? && profile.value.role == AgencyAdmin ==> r == Some("/agency")
  {
    if profile.None? then None
    else if profile.value.role.IsClinic() then Some("/clinic")
    else Some("/agency")
  }

  /** Every profile is sent to a screen that admits its role. */
  lemma {:induction false} LandingAdmitsRole(p: Profile)
    ensures AppRoutes.VisitPath(Landing(Some(p)).value, false, Some(p)).display.Show?
  {
    if p.role == AgencyAdmin {
      AppRoutes.AgencyRoutes("/agency");
    } else {
      AppRoutes.ClinicDashboardRoute("/clinic");
    }
  }

  class ClinicLogin {
    var message: Option<string>
    var submitting: bool
    const nav: Location
    const auth: AuthProvider

    constructor (nav: Location, auth: AuthProvider)
      ensures this.nav == nav && this.auth == auth
      ensures message.None? && !submitting
    {
      this.nav := nav;
      this.auth := auth;
      message := None;
      submitting := false;
    }

    /** The effect run when the profile changes: two independent checks, of which at most one applies. */
    method OnProfileChange()
      modifies this, nav
      ensures auth.profile.None? ==> nav.path == old(nav.path) && message == old(message)
      ensures auth.profile.Some? ==> nav.path == Landing(auth.profile).value
      ensures auth.profile.Some? && auth.profile.value.role.IsClinic() ==> message == old(message)
      ensures auth.profile.Some? && auth.profile.value.role == AgencyAdmin ==> message == Some(WrongPortalMessage)
      ensures submitting == old(submitting)
    {
      var profile := auth.profile;
      if profile.None? {
        return;
      }
      if profile.value.role == ManagedClinic || profile.value.role == IndependentClinic {
        nav.SetLocation("/clinic");
      }
      if profile.value.role == AgencyAdmin {
        message := Some(WrongPortalMessage);
        nav.SetLocation("/agency");
      }
    }

    /** Submitting delegates to the managed-clinic sign-in and then clears `submitting`. */
    method HandleSubmit(username: string, password: string, backend: Backend<SignInReply>,
                        freshId: string, freshClinicId: string)
      requires auth.Mirrored()
      modifies this, auth, auth.storage
      ensures auth.State() == SignInOutcome(old(auth.State()), username, Some(ManagedClinic), backend, freshId, freshClinicId)
      ensures auth.Mirrored()
      ensures !submitting && message == old(message)
    {
      submitting := true;
      auth.SignInManagedClinic(username, password, backend, freshId, freshClinicId);
      submitting := false;
    }
  }
}
