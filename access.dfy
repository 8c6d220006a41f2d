/** The route guards: pure decisions from a path and a role (or no role) to allow or redirect. */
module Access {
  import opened Util
  import opened Schema

  /** `{allowed, redirect?}` as the guards return it. */
  datatype Guard = Guard(allowed: bool, redirect: Option<string>)

  const ClinicLogin: string := "/auth/clinic-login"
  const AgencyLogin: string := "/auth/agency-login"

  /** Only an independent clinic may see clinic billing. */
  function CanAccessClinicBilling(role: Option<Role>): (r: bool)
    ensures r <==> role == Some(IndependentClinic)
  {
    role == Some(IndependentClinic)
  }

  /** Agency paths need an agency admin; any other path needs only some role. */
  function CanAccessAgency(path: string, role: Option<Role>): (r: bool)
    ensures role.None? ==> !r
    ensures role.Some? && StartsWith(path, "/agency") ==> (r <==> role.value == AgencyAdmin)
    ensures role.Some? && !StartsWith(path, "/agency") ==> r
  {
    if role.None? then false
    else if StartsWith(path, "/agency") then role.value == AgencyAdmin
    else true
  }

  /** The clinic-area guard: three ordered checks, then allow. */
  function GuardClinicRoute(path: string, role: Option<Role>): (r: Guard)
    // allowed exactly when every rule that applies to the path is met
    ensures r.allowed <==>
      && role.Some?
      && (StartsWith(path, "/clinic/billing") ==> role.value == IndependentClinic)
      && (StartsWith(path, "/clinic") ==> role.value.IsClinic())
    // a denial always names where to go, an allowance never does
    ensures r.allowed <==> r.redirect.None?
    ensures role.None? ==> r.redirect == Some(ClinicLogin)
    ensures role.Some? && !r.allowed ==>
      r.redirect == Some(if StartsWith(path, "/clinic/billing") then "/clinic" else "/")
  {
    if role.None? then Guard(false, Some(ClinicLogin))
    else if StartsWith(path, "/clinic/billing") && role.value != IndependentClinic then Guard(false, Some("/clinic"))
    else if StartsWith(path, "/clinic") && !(role.value in [IndependentClinic, ManagedClinic]) then Guard(false, Some("/"))
    else Guard(true, None)
  }

  /** The agency-area guard: only an agency admin passes. */
  function GuardAgencyRoute(role: Option<Role>): (r: Guard)
    ensures r.allowed <==> role == Some(AgencyAdmin)
    ensures r.allowed <==> r.redirect.None?
    ensures !r.allowed ==> r.redirect == Some(AgencyLogin)
  {
    if role.None? || role.value != AgencyAdmin then Guard(false, Some(AgencyLogin))
    else Guard(true, None)
  }

  /** A billing path is also a clinic path. */
  lemma {:induction false} BillingIsClinicPath(path: string)
    requires StartsWith(path, "/clinic/billing")
    ensures StartsWith(path, "/clinic")
  {
    assert path[..7] == path[..15][..7];
  }

  /** Without a role every clinic path, and every other path, leads to the clinic login. */
  lemma {:induction false} NoRoleGoesToClinicLogin(path: string)
    ensures GuardClinicRoute(path, None) == Guard(false, Some(ClinicLogin))
  {
  }

  /** A managed clinic can never reach clinic billing, whatever follows the prefix. */
  lemma {:induction false} ManagedClinicNeverBills(path: string)
    requires StartsWith(path, "/clinic/billing")
    ensures GuardClinicRoute(path, Some(ManagedClinic)) == Guard(false, Some("/clinic"))
    ensures !CanAccessClinicBilling(Some(ManagedClinic))
  {
  }

  /** An independent clinic passes every clinic path, billing included. */
  lemma {:induction false} IndependentClinicPassesClinicArea(path: string)
    ensures GuardClinicRoute(path, Some(IndependentClinic)).allowed
  {
  }

  /** An agency admin is turned away from the clinic area: to `/clinic` from billing, to `/` elsewhere. */
  lemma {:induction false} AgencyAdminLeavesClinicArea(path: string)
    requires StartsWith(path, "/clinic")
    ensures !GuardClinicRoute(path, Some(AgencyAdmin)).allowed
    ensures GuardClinicRoute(path, Some(AgencyAdmin)).redirect ==
      Some(if StartsWith(path, "/clinic/billing") then "/clinic" else "/")
  {
  }

  /** Outside the clinic area any role is let through. */
  lemma {:induction false} OutsideClinicAreaAllowed(path: string, role: Role)
    requires !StartsWith(path, "/clinic")
    ensures GuardClinicRoute(path, Some(role)) == Guard(true, None)
  {
    if StartsWith(path, "/clinic/billing") {
      BillingIsClinicPath(path);
    }
  }

  /** The cases the repository's own unit tests pin down. */
  lemma GuardExamples()
    ensures GuardClinicRoute("/clinic/billing", Some(ManagedClinic)) == Guard(false, Some("/clinic"))
    ensures GuardClinicRoute("/clinic/billing", Some(IndependentClinic)).allowed
    ensures GuardClinicRoute("/clinic", Some(AgencyAdmin)) == Guard(false, Some("/"))
    ensures GuardAgencyRoute(None) == Guard(false, Some(AgencyLogin))
    ensures !GuardAgencyRoute(Some(IndependentClinic)).allowed
    ensures CanAccessClinicBilling(Some(IndependentClinic))
    ensures !CanAccessClinicBilling(Some(ManagedClinic))
  {
    assert StartsWith("/clinic/billing", "/clinic/billing");
    assert StartsWith("/clinic", "/clinic");
    assert !StartsWith("/clinic", "/clinic/billing");
  }
}
