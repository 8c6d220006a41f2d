/** The agency login screen: where a signed-in profile is sent, and the sign-in it submits. */
module AgencyLoginPage {
  import opened Util
  import opened Schema
  import opened ClientTypes
  import opened Browser
  import opened AuthContext
  import AppRoutes

  const WrongPortalMessage: string := "You are logged in as a clinic user. Redirecting to the clinic dashboard."

  /** Where the screen sends a profile: an agency admin to `/agency`, a clinic user to `/clinic`; nowhere without one. */
  function Landing(profile: Option<Profile>): (r: Option<string>)
    ensures profile.None? <==> r.None?
    ensures profile.Some? && profile.value.role == AgencyAdmin ==> r == Some("/agency")
    ensures profile.Some? && profile.value.role.IsClinic() ==> r == Some("/clinic")
  {
    if profile.None? then None
    else if profile.value.role == AgencyAdmin then Some("/agency")
    else Some("/clinic")
  }

  /** Every profile is sent to a screen that admits its role. */
  lemma {:induction false} LandingAdmitsRole(p: Profile)
    ensures AppRoutes.VisitPath(Landing(Some(p)).value, false, Some(p)).display.Show?
  {
    if p.role == AgencyAdmin {
      AppRoutes.AgencyRoutes("/agency");
    } else {
      AppRoutes.ClinicDashboardRoute("/clinic");
    }
  }

  class AgencyLogin {
    var message: Option<string>
    var submitting: bool
    const nav: Location
    const auth: AuthProvider

    constructor (nav: Location, auth: AuthProvider)
      ensures this.nav == nav && this.auth == auth
      ensures message.None? && !submitting
    {
      this.nav := nav;
      this.auth := auth;
      message := None;
      submitting := false;
    }

    /** The effect run when the profile changes. */
    method OnProfileChange()
      modifies this, nav
      ensures auth.profile.None? ==> nav.path == old(nav.path) && message == old(message)
      ensures auth.profile.Some? ==> nav.path == Landing(auth.profile).value
      ensures auth.profile.Some? && auth.profile.value.role == AgencyAdmin ==> message == old(message)
      ensures auth.profile.Some? && auth.profile.value.role.IsClinic() ==> message == Some(WrongPortalMessage)
      ensures submitting == old(submitting)
    {
      var profile := auth.profile;
      if profile.None? {
        return;
      }
      if profile.value.role == AgencyAdmin {
        nav.SetLocation("/agency");
      } else if profile.value.role == IndependentClinic || profile.value.role == ManagedClinic {
        message := Some(WrongPortalMessage);
        nav.SetLocation("/clinic");
      }
    }

    /** Submitting the form signs in with the agency-admin role hint, whatever was typed. */
    method HandleSubmit(email: string, password: string, backend: Backend<SignInReply>,
                        freshId: string, freshClinicId: string)
      requires auth.Mirrored()
      modifies this, auth, auth.storage
      ensures auth.State() == SignInOutcome(old(auth.State()), email, Some(AgencyAdmin), backend, freshId, freshClinicId)
      ensures auth.Mirrored()
      ensures !submitting && message == old(message)
    {
      submitting := true;
      auth.SignInWithEmail(email, password, Some(AgencyAdmin), backend, freshId, freshClinicId);
      submitting := false;
    }
  }
}
