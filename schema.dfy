/**
 * The roles and the rows of the hosted tables (profiles, agencies, clinics, calls, subscriptions),
 * with their enumerated columns and the defaults the schema declares.
 */
module Schema {
  import opened Util

  /** The three roles; the strings are those of the role constants. */
  datatype Role = AgencyAdmin | ManagedClinic | IndependentClinic {
    function Name(): string {
      match this
      case AgencyAdmin => "agency_admin"
      case ManagedClinic => "managed_clinic"
      case IndependentClinic => "independent_clinic"
    }
    predicate IsClinic() {
      this == ManagedClinic || this == IndependentClinic
    }
  }

  /** The role a stored role string names, if any. */
  function ParseRole(s: string): (r: Option<Role>)
    ensures r.Some? ==> r.value.Name() == s
    ensures r.None? ==> forall role: Role :: role.Name() != s
  {
    if s == "agency_admin" then Some(AgencyAdmin)
    else if s == "managed_clinic" then Some(ManagedClinic)
    else if s == "independent_clinic" then Some(IndependentClinic)
    else None
  }

  datatype SystemStatus = Active | Paused

  datatype OwnerType = AgencyOwner | ClinicOwner {
    function Name(): string {
      match this
      case AgencyOwner => "agency"
      case ClinicOwner => "clinic"
    }
  }

  /** The owner type a request or webhook string names, if any. */
  function ParseOwnerType(s: string): (r: Option<OwnerType>)
    ensures r.Some? ==> r.value.Name() == s
    ensures r.None? ==> s != "agency" && s != "clinic"
  {
    if s == "agency" then Some(AgencyOwner)
    else if s == "clinic" then Some(ClinicOwner)
    else None
  }

  datatype SubscriptionStatus = SubActive | Canceled | Trialing | PastDue {
    function Name(): string {
      match this
      case SubActive => "active"
      case Canceled => "canceled"
      case Trialing => "trialing"
      case PastDue => "past_due"
    }
  }

  /** The subscription status a string names, if any (the column is an enum). */
  function ParseSubscriptionStatus(s: string): (r: Option<SubscriptionStatus>)
    ensures r.Some? ==> r.value.Name() == s
    ensures r.None? ==> forall st: SubscriptionStatus :: st.Name() != s
  {
    if s == "active" then Some(SubActive)
    else if s == "canceled" then Some(Canceled)
    else if s == "trialing" then Some(Trialing)
    else if s == "past_due" then Some(PastDue)
    else None
  }

  datatype CallStatus = Answered | Missed | Voicemail | Routed

  /** A row of `profiles`: binds an auth identity to a role and tenant ids. */
  datatype ProfileRow = ProfileRow(id: string, role: Role, agencyId: Option<string>, clinicId: Option<string>)

  datatype AgencyRow = AgencyRow(
    id: string, name: string, ownerUserId: string,
    logoUrl: Option<string>, brandColor: Option<string>, systemStatus: SystemStatus)

  /** A row of `clinics`; `agencyId == None` marks an independent clinic. `createdAt` orders rows. */
  datatype ClinicRow = ClinicRow(
    id: string, name: string, ghlLocationId: Option<string>, phoneNumber: Option<string>,
    agencyId: Option<string>, systemStatus: SystemStatus,
    forwardingNumber: Option<string>, voice: Option<string>, createdAt: int)

  /** A row of `calls`; `timestamp` is the call time as an orderable instant. */
  datatype CallRow = CallRow(
    id: string, clinicId: string, caller: string, timestamp: int,
    durationSeconds: Option<int>, status: CallStatus,
    summary: Option<string>, transcript: Option<string>, recordingUrl: Option<string>)

  /** The key the subscription mirror is kept under: one row per owner. */
  datatype OwnerKey = OwnerKey(ownerType: OwnerType, ownerId: string)

  /** A row of `subscriptions` (its key is kept apart, as the map key). */
  datatype SubscriptionRow = SubscriptionRow(
    paddleSubscriptionId: Option<string>, status: SubscriptionStatus, plan: Option<string>,
    billingEmail: Option<string>, currentPeriodEnd: Option<string>)

  /** A freshly inserted subscription row takes the column defaults: trialing, plan usage_only. */
  function DefaultSubscription(): (r: SubscriptionRow)
    ensures r.status == Trialing && r.plan == Some("usage_only")
    ensures r.paddleSubscriptionId.None? && r.billingEmail.None? && r.currentPeriodEnd.None?
  {
    SubscriptionRow(None, Trialing, Some("usage_only"), None, None)
  }
}
