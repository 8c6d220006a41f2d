/**
 * The browser's data service over the hosted tables: reading a profile, the two provisioning
 * sequences (clinic row first, then the profile), and the filtered, newest-first list readers.
 */
module SupabaseProfiles {
  import opened Util
  import opened Schema
  import opened ClientTypes
  import opened Datastore
  import Server

  /** The browser's database client: not configured, configured but every request fails, or working. */
  datatype Connection = Unconfigured | Failing(message: string) | Connected

  const NotConfigured: string := "Supabase not configured"
  const ManagedProvisionFailed: string := "Failed to provision managed clinic user"
  const DuplicateKey: string := "duplicate key value violates unique constraint"

  /** The profile of a user, camel-cased; `null` without a client or without a row, a throw on a store error. */
  function LoadProfile(conn: Connection, profiles: map<string, ProfileRow>, userId: string): (r: Result<Option<Profile>, string>)
    ensures conn.Unconfigured? ==> r == Ok(None)
    ensures conn.Failing? ==> r == Err(conn.message)
    ensures conn.Connected? && userId !in profiles ==> r == Ok(None)
    ensures conn.Connected? && userId in profiles ==>
      && r.Ok? && r.value.Some?
      && r.value.value.id == profiles[userId].id
      && r.value.value.role == profiles[userId].role
      && r.value.value.agencyId == profiles[userId].agencyId
      && r.value.value.clinicId == profiles[userId].clinicId
      && r.value.value.email.None?
  {
    match conn
    case Unconfigured => Ok(None)
    case Failing(message) => Err(message)
    case Connected =>
      if userId !in profiles then Ok(None)
      else
        var row := profiles[userId];
        Ok(Some(Profile(row.id, None, row.role, row.agencyId, row.clinicId)))
  }

  /** The rows an insert-then-select returns. */
  datatype Provisioned = Provisioned(profile: Option<ProfileRow>, clinic: Option<ClinicRow>)

  /** The clinic row an independent clinic starts with: no agency, active. */
  function IndependentClinicRow(id: string, name: string, phoneNumber: Option<string>, now: int): (c: ClinicRow)
    ensures c.id == id && c.name == name && c.phoneNumber == phoneNumber
    ensures c.agencyId.None? && c.systemStatus == Active && c.ghlLocationId.None?
  {
    ClinicRow(id, name, None, phoneNumber, None, Active, None, None, now)
  }

  /** The clinic row an agency creates for a managed clinic: its agency, active. */
  function ManagedClinicRow(id: string, name: string, ghlLocationId: Option<string>, phoneNumber: Option<string>,
                            agencyId: string, now: int): (c: ClinicRow)
    ensures c.id == id && c.name == name && c.ghlLocationId == ghlLocationId && c.phoneNumber == phoneNumber
    ensures c.agencyId == Some(agencyId) && c.systemStatus == Active
  {
    ClinicRow(id, name, ghlLocationId, phoneNumber, Some(agencyId), Active, None, None, now)
  }

  /**
   * Insert the clinic, then the profile that makes the user its independent owner. A failing
   * clinic insert stops before the profile; a failing profile insert leaves the clinic behind.
   */
  method ProvisionIndependentClinic(db: Store, conn: Connection, userId: string, clinicName: string,
                                    phoneNumber: Option<string>, newClinicId: string, now: int)
    returns (r: Result<Provisioned, string>)
    requires db.Valid()
    modifies db
    ensures db.Valid()
    ensures db.authUsers == old(db.authUsers) && db.sessions == old(db.sessions)
    ensures db.calls == old(db.calls) && db.subscriptions == old(db.subscriptions)
    ensures conn.Unconfigured? ==> r == Err(NotConfigured) && unchanged(db)
    ensures conn.Failing? ==> r == Err(conn.message) && unchanged(db)
    ensures conn.Connected? && FindClinic(old(db.clinics), newClinicId).Some? ==> r == Err(DuplicateKey) && unchanged(db)
    ensures conn.Connected? && FindClinic(old(db.clinics), newClinicId).None? ==>
      var clinic := IndependentClinicRow(newClinicId, clinicName, phoneNumber, now);
      var profile := ProfileRow(userId, IndependentClinic, None, Some(newClinicId));
      && db.clinics == old(db.clinics) + [clinic]
      && (userId in old(db.profiles) ==> r == Err(DuplicateKey) && db.profiles == old(db.profiles))
      && (userId !in old(db.profiles) ==>
            r == Ok(Provisioned(Some(profile), Some(clinic))) && db.profiles == old(db.profiles)[userId := profile])
  {
    if conn.Unconfigured? {
      return Err(NotConfigured);
    }
    if conn.Failing? {
      return Err(conn.message);
    }
    if FindClinic(db.clinics, newClinicId).Some? {
      return Err(DuplicateKey);
    }
    var clinic := IndependentClinicRow(newClinicId, clinicName, phoneNumber, now);
    AppendFreshClinic(db.clinics, clinic);
    db.clinics := db.clinics + [clinic];

    if userId in db.profiles {
      // no rollback: the clinic row stays
      return Err(DuplicateKey);
    }
    var profile := ProfileRow(userId, IndependentClinic, None, Some(newClinicId));
    db.profiles := db.profiles[userId := profile];
    return Ok(Provisioned(Some(profile), Some(clinic)));
  }

  /** The `Authorization` header the browser sends: present only with a non-empty access token. */
  function AuthorizationHeader(accessToken: Option<string>): (h: Option<string>)
    ensures h.Some? <==> Truthy(accessToken)
    ensures h.Some? ==> StartsWith(h.value, Server.Bearer) && h.value[|Server.Bearer|..] == accessToken.value
  {
    if Truthy(accessToken) then
      var h := Server.Bearer + accessToken.value;
      assert h[..|Server.Bearer|] == Server.Bearer;
      Some(h)
    else None
  }

  /** The server reads back exactly the token the browser sent, and sees a missing token as missing. */
  lemma {:induction false} AuthorizationRoundTrip(accessToken: Option<string>)
    ensures Truthy(accessToken) ==> Server.ProvisionToken(AuthorizationHeader(accessToken)) == accessToken
    ensures !Truthy(accessToken) ==> Server.ProvisionToken(AuthorizationHeader(accessToken)).None?
  {
  }

  /** A 2xx status. */
  predicate Ok2xx(status: int) {
    200 <= status < 300
  }

  /** The server accepts a provisioning request for this new clinic, and the identity provider takes the user. */
  predicate ManagedProvisionAccepted(sessions: map<string, string>, profiles: map<string, ProfileRow>, clinics: seq<ClinicRow>,
                                     authUsers: map<string, string>, req: Server.ProvisionRequest,
                                     header: Option<string>, serverConfigured: bool, newUserId: string, policyRefuses: bool)
  {
    && Server.ProvisionCheck(req, header, serverConfigured, sessions, profiles, clinics).Pass?
    && !Server.CreateUserRefused(authUsers, Server.ManagedEmail(req.username.value), newUserId, policyRefuses)
  }

  /**
   * Insert the managed clinic under the agency, then ask the server to create its user. A refused
   * request is an error, and the clinic row it was meant for stays.
   */
  method ProvisionManagedClinicUser(db: Store, conn: Connection, agencyId: string, clinicName: string,
                                    ghlLocationId: Option<string>, phoneNumber: Option<string>,
                                    username: string, password: string, accessToken: Option<string>,
                                    newClinicId: string, newUserId: string, now: int, serverConfigured: bool,
                                    policyRefuses: bool)
    returns (r: Result<Provisioned, string>)
    requires db.Valid()
    modifies db
    ensures db.Valid()
    ensures conn.Unconfigured? ==> r == Err(NotConfigured) && unchanged(db)
    ensures conn.Failing? ==> r == Err(conn.message) && unchanged(db)
    ensures conn.Connected? && FindClinic(old(db.clinics), newClinicId).Some? ==> r == Err(DuplicateKey) && unchanged(db)
    ensures conn.Connected? && FindClinic(old(db.clinics), newClinicId).None? ==>
      var clinic := ManagedClinicRow(newClinicId, clinicName, ghlLocationId, phoneNumber, agencyId, now);
      var req := Server.ProvisionRequest(Some(newClinicId), Some(username), Some(password), Some(agencyId));
      var accepted := ManagedProvisionAccepted(old(db.sessions), old(db.profiles), old(db.clinics) + [clinic],
                                               old(db.authUsers), req, AuthorizationHeader(accessToken), serverConfigured,
                                               newUserId, policyRefuses);
      var row := ProfileRow(newUserId, ManagedClinic, Some(agencyId), Some(newClinicId));
      && db.clinics == old(db.clinics) + [clinic]
      && db.sessions == old(db.sessions) && db.calls == old(db.calls) && db.subscriptions == old(db.subscriptions)
      && (r.Ok? <==> accepted)
      && (!accepted ==>
            r == Err(ManagedProvisionFailed) && db.profiles == old(db.profiles) && db.authUsers == old(db.authUsers))
      && (accepted ==>
            && db.authUsers == old(db.authUsers)[newUserId := Server.ManagedEmail(username)]
            && db.profiles == (if newUserId in old(db.profiles) then old(db.profiles) else old(db.profiles)[newUserId := row])
            && r == Ok(Provisioned(if newUserId in old(db.profiles) then None else Some(row), Some(clinic))))
  {
    if conn.Unconfigured? {
      return Err(NotConfigured);
    }
    if conn.Failing? {
      return Err(conn.message);
    }
    if FindClinic(db.clinics, newClinicId).Some? {
      return Err(DuplicateKey);
    }
    var clinic := ManagedClinicRow(newClinicId, clinicName, ghlLocationId, phoneNumber, agencyId, now);
    AppendFreshClinic(db.clinics, clinic);
    db.clinics := db.clinics + [clinic];

    var req := Server.ProvisionRequest(Some(newClinicId), Some(username), Some(password), Some(agencyId));
    var requested := RequestManagedUser(db, req, accessToken, serverConfigured, newUserId, policyRefuses);
    if requested.Err? {
      // no rollback: the clinic row stays
      return Err(requested.error);
    }
    return Ok(Provisioned(requested.value, Some(clinic)));
  }

  /**
   * The call to the provisioning endpoint with the access token as bearer, and the reading of its
   * answer: a 2xx answer carries the new profile (or `null`), anything else is an error.
   */
  method RequestManagedUser(db: Store, req: Server.ProvisionRequest, accessToken: Option<string>, serverConfigured: bool,
                            newUserId: string, policyRefuses: bool)
    returns (r: Result<Option<ProfileRow>, string>)
    requires db.Valid()
    modifies db
    ensures db.Valid()
    ensures var accepted := ManagedProvisionAccepted(old(db.sessions), old(db.profiles), old(db.clinics), old(db.authUsers),
                                                     req, AuthorizationHeader(accessToken), serverConfigured,
                                                     newUserId, policyRefuses);
      var row := ProfileRow(newUserId, ManagedClinic, req.agencyId, req.clinicId);
      && db.clinics == old(db.clinics)
      && db.sessions == old(db.sessions) && db.calls == old(db.calls) && db.subscriptions == old(db.subscriptions)
      && (r.Ok? <==> accepted)
      && (!accepted ==>
            r == Err(ManagedProvisionFailed) && db.profiles == old(db.profiles) && db.authUsers == old(db.authUsers))
      && (accepted ==>
            && db.authUsers == old(db.authUsers)[newUserId := Server.ManagedEmail(req.username.value)]
            && db.profiles == (if newUserId in old(db.profiles) then old(db.profiles) else old(db.profiles)[newUserId := row])
            && r == Ok(if newUserId in old(db.profiles) then None else Some(row)))
  {
    ghost var check := Server.ProvisionCheck(req, AuthorizationHeader(accessToken), serverConfigured, db.sessions, db.profiles, db.clinics);
    var response := Server.ProvisionManagedClinic(db, req, AuthorizationHeader(accessToken), serverConfigured, newUserId, policyRefuses);
    if !Ok2xx(response.status) {
      return Err(ManagedProvisionFailed);
    }
    assert check.Pass?;
    var profile := if response.body.Provisioned? then response.body.profile else None;
    return Ok(profile);
  }

  /**
   * An agency admin with a valid token, provisioning a fresh user name for its own agency with
   * credentials the identity provider's rules take, gets a configured server's approval for the
   * clinic just inserted.
   */
  lemma {:induction false} OwnAgencyProvisionAccepted(
    sessions: map<string, string>, profiles: map<string, ProfileRow>, clinics: seq<ClinicRow>, authUsers: map<string, string>,
    agencyId: string, clinic: ClinicRow, username: string, password: string, token: string, newUserId: string)
    requires UniqueClinicIds(clinics) && FindClinic(clinics, clinic.id).None?
    requires clinic.agencyId == Some(agencyId)
    requires clinic.id != "" && agencyId != "" && username != "" && password != "" && token != ""
    requires token in sessions && Server.AdminOf(profiles, sessions[token], agencyId)
    requires Server.ManagedEmail(username) !in authUsers.Values && newUserId !in authUsers
    ensures ManagedProvisionAccepted(sessions, profiles, clinics + [clinic], authUsers,
                                     Server.ProvisionRequest(Some(clinic.id), Some(username), Some(password), Some(agencyId)),
                                     AuthorizationHeader(Some(token)), true, newUserId, false)
  {
    AppendFreshClinic(clinics, clinic);
    AuthorizationRoundTrip(Some(token));
  }

  /** Without an access token a configured server refuses the request as unauthenticated. */
  lemma {:induction false} NoTokenRefused(
    sessions: map<string, string>, profiles: map<string, ProfileRow>, clinics: seq<ClinicRow>,
    req: Server.ProvisionRequest)
    requires !Server.MissingProvisionField(req)
    ensures Server.ProvisionCheck(req, AuthorizationHeader(None), true, sessions, profiles, clinics) == Server.Reject(401, "Missing bearer token")
  {
  }

  // ---------------------------------------------------------------------------------------------
  // Readers

  function CreatedAt(c: ClinicRow): int { c.createdAt }
  function CallTime(c: CallRow): int { c.timestamp }

  /** `select * from clinics where agency_id = ? order by created_at desc` */
  function FetchAgencyClinics(conn: Connection, clinics: seq<ClinicRow>, agencyId: string): (r: Result<seq<ClinicRow>, string>)
    ensures conn.Unconfigured? ==> r == Ok([])
    ensures conn.Failing? ==> r == Err(conn.message)
    ensures conn.Connected? ==> r.Ok?
    ensures r.Ok? ==> SortedDesc(r.value, CreatedAt)
    ensures r.Ok? ==> forall i :: 0 <= i < |r.value| ==> r.value[i].agencyId == Some(agencyId)
    ensures conn.Connected? ==> multiset(r.value) == multiset(Filter(clinics, (c: ClinicRow) => c.agencyId == Some(agencyId)))
  {
    match conn
    case Unconfigured => Ok([])
    case Failing(message) => Err(message)
    case Connected =>
      var mine := Filter(clinics, (c: ClinicRow) => c.agencyId == Some(agencyId));
      var sorted := SortDesc(mine, CreatedAt);
      SameElements(sorted, mine);
      Ok(sorted)
  }

  /** `select * from calls where clinic_id = ? order by timestamp desc` */
  function FetchClinicCalls(conn: Connection, calls: seq<CallRow>, clinicId: string): (r: Result<seq<CallRow>, string>)
    ensures conn.Unconfigured? ==> r == Ok([])
    ensures conn.Failing? ==> r == Err(conn.message)
    ensures conn.Connected? ==> r.Ok?
    ensures r.Ok? ==> SortedDesc(r.value, CallTime)
    ensures r.Ok? ==> forall i :: 0 <= i < |r.value| ==> r.value[i].clinicId == clinicId
    ensures conn.Connected? ==> multiset(r.value) == multiset(Filter(calls, (c: CallRow) => c.clinicId == clinicId))
  {
    match conn
    case Unconfigured => Ok([])
    case Failing(message) => Err(message)
    case Connected =>
      var mine := Filter(calls, (c: CallRow) => c.clinicId == clinicId);
      var sorted := SortDesc(mine, CallTime);
      SameElements(sorted, mine);
      Ok(sorted)
  }

  /** Two lists with the same multiset hold the same elements. */
  lemma {:induction false} SameElements<T>(a: seq<T>, b: seq<T>)
    requires multiset(a) == multiset(b)
    ensures forall i :: 0 <= i < |a| ==> a[i] in b
  {
    forall i | 0 <= i < |a| ensures a[i] in b {
      assert a[i] in multiset(a);
    }
  }

  /** The subscription of one owner, or `null`. */
  function FetchSubscription(conn: Connection, subs: map<OwnerKey, SubscriptionRow>, ownerType: OwnerType, ownerId: string)
    : (r: Result<Option<SubscriptionRow>, string>)
    ensures conn.Unconfigured? ==> r == Ok(None)
    ensures conn.Failing? ==> r == Err(conn.message)
    ensures conn.Connected? ==> r.Ok? && (r.value.Some? <==> OwnerKey(ownerType, ownerId) in subs)
    ensures conn.Connected? && r.value.Some? ==> r.value.value == subs[OwnerKey(ownerType, ownerId)]
  {
    match conn
    case Unconfigured => Ok(None)
    case Failing(message) => Err(message)
    case Connected =>
      var key := OwnerKey(ownerType, ownerId);
      if key in subs then Ok(Some(subs[key])) else Ok(None)
  }

  /** A reader of clinics sees exactly the agency's clinics: one it owns is listed, one of another agency is not. */
  lemma {:induction false} AgencyClinicsExact(clinics: seq<ClinicRow>, agencyId: string, c: ClinicRow)
    ensures var r := FetchAgencyClinics(Connected, clinics, agencyId).value;
      c in r <==> c in clinics && c.agencyId == Some(agencyId)
  {
    var p := (x: ClinicRow) => x.agencyId == Some(agencyId);
    var r := FetchAgencyClinics(Connected, clinics, agencyId).value;
    FilterKeeps(clinics, p, c);
    assert c in r <==> c in multiset(r);
  }

  /** The newest call of a clinic comes first. */
  lemma {:induction false} NewestCallFirst(calls: seq<CallRow>, clinicId: string, c: CallRow)
    requires c in calls && c.clinicId == clinicId
    ensures var r := FetchClinicCalls(Connected, calls, clinicId).value;
      |r| > 0 && r[0].timestamp >= c.timestamp
  {
    var p := (x: CallRow) => x.clinicId == clinicId;
    var r := FetchClinicCalls(Connected, calls, clinicId).value;
    FilterKeeps(calls, p, c);
    assert c in multiset(Filter(calls, p));
    assert c in multiset(r);
    var k :| 0 <= k < |r| && r[k] == c;
    assert CallTime(r[0]) >= CallTime(r[k]) || k == 0;
  }
}
