/** The values the browser-side state holds: the signed-in profile, the agency, and what is kept in storage. */
module ClientTypes {
  import opened Util
  import opened Schema

  /**
   * The profile the client works with (camel-cased tenant ids). An absent field and a `null` one
   * are both `None`.
   */
  datatype Profile = Profile(
    id: string, email: Option<string>, role: Role,
    agencyId: Option<string>, clinicId: Option<string>)

  /** The agency record the agency session keeps. */
  datatype Agency = Agency(id: string, name: Option<string>, email: Option<string>)

  /** A value kept in local storage: a plain string, or a serialised profile or agency. */
  datatype Stored = Text(text: string) | ProfileJson(profile: Profile) | AgencyJson(agency: Agency)
}
