/**
 * The server's request handlers: managed-clinic provisioning, subscription cancellation and the
 * billing webhook, each an ordered series of early-return checks followed by writes to the store;
 * and the search for a free port at start-up.
 */
module Server {
  import opened Util
  import opened Schema
  import opened Datastore

  datatype ProvisionRequest = ProvisionRequest(
    clinicId: Option<string>, username: Option<string>, password: Option<string>, agencyId: Option<string>)

  datatype CancelRequest = CancelRequest(ownerType: Option<string>, ownerId: Option<string>)

  datatype Body =
    | ErrorBody(error: string)
    | Provisioned(profile: Option<ProfileRow>, email: string, password: string)
    | CanceledBody
    | ReceivedBody
    | EmptyBody

  datatype Response = Response(status: int, body: Body)

  /** The outcome of a handler's checks: the rejecting response, or the id of the authorised caller. */
  datatype Check = Reject(status: int, message: string) | Pass(callerId: string)

  const Bearer: string := "Bearer "

  /** Provisioning takes the token only from a header that starts with `Bearer `. */
  function ProvisionToken(header: Option<string>): (r: Option<string>)
    ensures r.Some? <==> header.Some? && StartsWith(header.value, Bearer)
    ensures r.Some? ==> r.value == header.value[|Bearer|..]
  {
    if header.Some? && StartsWith(header.value, Bearer) then
      ReplaceFirstOfPrefix(header.value, Bearer);
      Some(ReplaceFirst(header.value, Bearer, ""))
    else None
  }

  /** Cancellation removes the first `Bearer ` wherever it occurs, and takes any header as the token. */
  function CancelToken(header: Option<string>): (r: Option<string>)
    ensures r.Some? <==> header.Some?
    ensures header.Some? && StartsWith(header.value, Bearer) ==> r.value == header.value[|Bearer|..]
    ensures header.Some? && (forall i: nat :: !OccursAt(header.value, Bearer, i)) ==> r.value == header.value
    ensures forall i: nat :: header.Some? && OccursAt(header.value, Bearer, i) && (forall j: nat :: j < i ==> !OccursAt(header.value, Bearer, j)) ==>
      r.value == header.value[..i] + header.value[i + |Bearer|..]
  {
    if header.None? then None
    else if StartsWith(header.value, Bearer) then
      ReplaceFirstOfPrefix(header.value, Bearer);
      Some(ReplaceFirst(header.value, Bearer, ""))
    else Some(ReplaceFirst(header.value, Bearer, ""))
  }

  /**
   * A header with no `Bearer ` in it is refused by provisioning but passed through whole, as the
   * token, by cancellation.
   */
  lemma {:induction false} TokenRulesDiffer(header: string)
    requires forall i: nat :: !OccursAt(header, Bearer, i)
    ensures ProvisionToken(Some(header)).None?
    ensures CancelToken(Some(header)) == Some(header)
  {
    assert !OccursAt(header, Bearer, 0);
  }

  /** The login email of a managed user: the username if it already holds an `@`, else at `managed.local`. */
  function ManagedEmail(username: string): (email: string)
    ensures '@' in username ==> email == username
    ensures '@' !in username ==> email == username + "@managed.local"
    ensures '@' in email
  {
    if '@' in username then username
    else
      var email := username + "@managed.local";
      assert email[|username|] == '@';
      email
  }

  /** Synthesising twice gives the same address as synthesising once. */
  lemma {:induction false} ManagedEmailIdempotent(username: string)
    ensures ManagedEmail(ManagedEmail(username)) == ManagedEmail(username)
  {
  }

  // ---------------------------------------------------------------------------------------------
  // Provisioning a managed-clinic user

  const MissingFieldsMessage: string := "Missing clinicId, username, password, or agencyId"

  predicate MissingProvisionField(req: ProvisionRequest) {
    !Truthy(req.clinicId) || !Truthy(req.username) || !Truthy(req.password) || !Truthy(req.agencyId)
  }

  /** The user is the admin of this agency. */
  predicate AdminOf(profiles: map<string, ProfileRow>, userId: string, agencyId: string) {
    userId in profiles && profiles[userId].role == AgencyAdmin && profiles[userId].agencyId == Some(agencyId)
  }

  /** The clinic exists and belongs to this agency. */
  predicate ClinicOf(clinics: seq<ClinicRow>, clinicId: string, agencyId: string) {
    var c := FindClinic(clinics, clinicId);
    c.Some? && c.value.agencyId == Some(agencyId)
  }

  /** The token names a user the identity provider knows. */
  predicate Resolves(token: Option<string>, sessions: map<string, string>) {
    Truthy(token) && token.value in sessions
  }

  /**
   * The provisioning checks, in order: 400 for a missing field, 500 when the server's environment
   * lacks the database URL or a key (creating the clients throws, and the handler's catch answers),
   * 401 for the token, 403 for ownership.
   */
  function ProvisionCheck(req: ProvisionRequest, header: Option<string>, configured: bool, sessions: map<string, string>,
                          profiles: map<string, ProfileRow>, clinics: seq<ClinicRow>): (r: Check)
    ensures r.Reject? ==> r.status in {400, 401, 403, 500}
    ensures r == Reject(400, MissingFieldsMessage) <==> MissingProvisionField(req)
    ensures r == Reject(500, "Provisioning failed") <==> !MissingProvisionField(req) && !configured
    ensures r.Reject? && r.status == 401 <==>
      !MissingProvisionField(req) && configured && !Resolves(ProvisionToken(header), sessions)
    ensures r.Reject? && r.status == 403 <==>
      && !MissingProvisionField(req) && configured && Resolves(ProvisionToken(header), sessions)
      && !(AdminOf(profiles, sessions[ProvisionToken(header).value], req.agencyId.value)
           && ClinicOf(clinics, req.clinicId.value, req.agencyId.value))
    ensures r.Pass? <==>
      && !MissingProvisionField(req) && configured && Resolves(ProvisionToken(header), sessions)
      && AdminOf(profiles, sessions[ProvisionToken(header).value], req.agencyId.value)
      && ClinicOf(clinics, req.clinicId.value, req.agencyId.value)
    ensures r.Pass? ==> r.callerId == sessions[ProvisionToken(header).value]
  {
    if MissingProvisionField(req) then Reject(400, MissingFieldsMessage)
    else if !configured then Reject(500, "Provisioning failed")
    else
      var token := ProvisionToken(header);
      if !Truthy(token) then Reject(401, "Missing bearer token")
      else if token.value !in sessions then Reject(401, "Invalid token")
      else
        var userId := sessions[token.value];
        if !AdminOf(profiles, userId, req.agencyId.value) then Reject(403, "Forbidden")
        else if !ClinicOf(clinics, req.clinicId.value, req.agencyId.value) then Reject(403, "Clinic does not belong to agency")
        else Pass(userId)
  }

  /**
   * The identity provider refuses to create a user whose email or id is already taken, or whose
   * credentials its own rules reject (`policyRefuses`: password strength, email format and the
   * like, which the provider decides and the server does not see).
   */
  predicate CreateUserRefused(authUsers: map<string, string>, email: string, newId: string, policyRefuses: bool) {
    policyRefuses || email in authUsers.Values || newId in authUsers
  }

  /** `POST /api/provision/managed-clinic` */
  method ProvisionManagedClinic(db: Store, req: ProvisionRequest, header: Option<string>, configured: bool,
                                newUserId: string, policyRefuses: bool)
    returns (resp: Response)
    requires db.Valid()
    modifies db
    ensures db.Valid()
    ensures var check := ProvisionCheck(req, header, configured, old(db.sessions), old(db.profiles), old(db.clinics));
      && (check.Reject? ==> resp == Response(check.status, ErrorBody(check.message)) && unchanged(db))
      && (check.Pass? && CreateUserRefused(old(db.authUsers), ManagedEmail(req.username.value), newUserId, policyRefuses) ==>
            resp == Response(500, ErrorBody("Provisioning failed")) && unchanged(db))
      && (check.Pass? && !CreateUserRefused(old(db.authUsers), ManagedEmail(req.username.value), newUserId, policyRefuses) ==>
            var row := ProfileRow(newUserId, ManagedClinic, req.agencyId, req.clinicId);
            && resp.status == 201
            && resp.body == Provisioned(if newUserId in old(db.profiles) then None else Some(row),
                                        ManagedEmail(req.username.value), req.password.value)
            && db.authUsers == old(db.authUsers)[newUserId := ManagedEmail(req.username.value)]
            && db.profiles == (if newUserId in old(db.profiles) then old(db.profiles) else old(db.profiles)[newUserId := row])
            && db.sessions == old(db.sessions) && db.clinics == old(db.clinics)
            && db.calls == old(db.calls) && db.subscriptions == old(db.subscriptions))
  {
    ghost var check := ProvisionCheck(req, header, configured, db.sessions, db.profiles, db.clinics);
    if MissingProvisionField(req) {
      return Response(400, ErrorBody(MissingFieldsMessage));
    }
    if !configured {
      return Response(500, ErrorBody("Provisioning failed"));
    }
    var clinicId, username, password, agencyId := req.clinicId.value, req.username.value, req.password.value, req.agencyId.value;

    var token := ProvisionToken(header);
    if !Truthy(token) {
      assert check == Reject(401, "Missing bearer token");
      return Response(401, ErrorBody("Missing bearer token"));
    }
    if token.value !in db.sessions {
      assert check == Reject(401, "Invalid token");
      return Response(401, ErrorBody("Invalid token"));
    }
    var userId := db.sessions[token.value];

    if !AdminOf(db.profiles, userId, agencyId) {
      assert check == Reject(403, "Forbidden");
      return Response(403, ErrorBody("Forbidden"));
    }
    if !ClinicOf(db.clinics, clinicId, agencyId) {
      assert check == Reject(403, "Clinic does not belong to agency");
      return Response(403, ErrorBody("Clinic does not belong to agency"));
    }
    assert check == Pass(userId);

    var email := ManagedEmail(username);
    if CreateUserRefused(db.authUsers, email, newUserId, policyRefuses) {
      return Response(500, ErrorBody("Provisioning failed"));
    }
    db.authUsers := db.authUsers[newUserId := email];

    // the insert's own error is not looked at: a clash leaves the profile out of the reply
    var row := ProfileRow(newUserId, ManagedClinic, Some(agencyId), Some(clinicId));
    var profile: Option<ProfileRow> := None;
    if newUserId !in db.profiles {
      db.profiles := db.profiles[newUserId := row];
      profile := Some(row);
    }
    return Response(201, Provisioned(profile, email, password));
  }

  // ---------------------------------------------------------------------------------------------
  // Cancelling a subscription

  /** The caller's profile may cancel for this owner: agency owners by their admin, clinic owners by the independent clinic. */
  predicate MayCancel(ownerType: string, ownerId: string, p: ProfileRow) {
    && (ownerType == "agency" ==> p.role == AgencyAdmin && p.agencyId == Some(ownerId))
    && (ownerType == "clinic" ==> p.role == IndependentClinic && p.clinicId == Some(ownerId))
  }

  /**
   * The cancellation checks, in order: 400 without an owner, 500 when the server's environment
   * lacks the database URL or a key, 401 for the token, 403 for the profile.
   */
  function CancelCheck(req: CancelRequest, header: Option<string>, configured: bool, sessions: map<string, string>,
                       profiles: map<string, ProfileRow>): (r: Check)
    ensures r.Reject? ==> r.status in {400, 401, 403, 500}
    ensures r == Reject(400, "Missing owner") <==> !Truthy(req.ownerType) || !Truthy(req.ownerId)
    ensures r == Reject(500, "Failed to cancel") <==> Truthy(req.ownerType) && Truthy(req.ownerId) && !configured
    ensures r.Reject? && r.status == 401 <==>
      Truthy(req.ownerType) && Truthy(req.ownerId) && configured && !Resolves(CancelToken(header), sessions)
    ensures r.Pass? <==>
      && Truthy(req.ownerType) && Truthy(req.ownerId) && configured && Resolves(CancelToken(header), sessions)
      && sessions[CancelToken(header).value] in profiles
      && MayCancel(req.ownerType.value, req.ownerId.value, profiles[sessions[CancelToken(header).value]])
    ensures r.Pass? ==> r.callerId == sessions[CancelToken(header).value]
  {
    if !Truthy(req.ownerType) || !Truthy(req.ownerId) then Reject(400, "Missing owner")
    else if !configured then Reject(500, "Failed to cancel")
    else
      var ownerType, ownerId := req.ownerType.value, req.ownerId.value;
      var token := CancelToken(header);
      if !Truthy(token) then Reject(401, "Missing bearer token")
      else if token.value !in sessions then Reject(401, "Invalid token")
      else
        var userId := sessions[token.value];
        if userId !in profiles then Reject(403, "Profile not found")
        else
          var p := profiles[userId];
          if ownerType == "agency" && p.role != AgencyAdmin then Reject(403, "Only agencies may cancel their subscription")
          else if ownerType == "clinic" && p.role != IndependentClinic then Reject(403, "Only independent clinics may cancel their plan")
          else if (ownerType == "agency" && p.agencyId != Some(ownerId)) || (ownerType == "clinic" && p.clinicId != Some(ownerId)) then
            Reject(403, "Owner mismatch")
          else Pass(userId)
  }

  /**
   * The update `status = canceled where owner_type = t and owner_id = id`: only that owner's row
   * changes, and a missing row is not created. An owner type the table does not know matches no row.
   */
  function CancelRows(subs: map<OwnerKey, SubscriptionRow>, ownerType: string, ownerId: string): (r: map<OwnerKey, SubscriptionRow>)
    ensures r.Keys == subs.Keys
    ensures forall k :: k in subs && (k.ownerType.Name() != ownerType || k.ownerId != ownerId) ==> r[k] == subs[k]
    ensures forall k :: k in subs && k.ownerType.Name() == ownerType && k.ownerId == ownerId ==>
      r[k] == subs[k].(status := Canceled)
  {
    match ParseOwnerType(ownerType)
    case None => subs
    case Some(t) =>
      var key := OwnerKey(t, ownerId);
      if key in subs then subs[key := subs[key].(status := Canceled)] else subs
  }

  /** `POST /api/subscriptions/cancel` */
  method CancelSubscription(db: Store, req: CancelRequest, header: Option<string>, configured: bool) returns (resp: Response)
    modifies db
    ensures var check := CancelCheck(req, header, configured, old(db.sessions), old(db.profiles));
      && (check.Reject? ==> resp == Response(check.status, ErrorBody(check.message)) && unchanged(db))
      && (check.Pass? ==>
            && resp == Response(200, CanceledBody)
            && db.subscriptions == CancelRows(old(db.subscriptions), req.ownerType.value, req.ownerId.value)
            && db.authUsers == old(db.authUsers) && db.sessions == old(db.sessions)
            && db.profiles == old(db.profiles) && db.clinics == old(db.clinics) && db.calls == old(db.calls))
  {
    ghost var check := CancelCheck(req, header, configured, db.sessions, db.profiles);
    if !Truthy(req.ownerType) || !Truthy(req.ownerId) {
      return Response(400, ErrorBody("Missing owner"));
    }
    if !configured {
      return Response(500, ErrorBody("Failed to cancel"));
    }
    var ownerType, ownerId := req.ownerType.value, req.ownerId.value;
    var token := CancelToken(header);
    if !Truthy(token) {
      assert check == Reject(401, "Missing bearer token");
      return Response(401, ErrorBody("Missing bearer token"));
    }
    if token.value !in db.sessions {
      assert check == Reject(401, "Invalid token");
      return Response(401, ErrorBody("Invalid token"));
    }
    var userId := db.sessions[token.value];
    if userId !in db.profiles {
      assert check == Reject(403, "Profile not found");
      return Response(403, ErrorBody("Profile not found"));
    }
    var p := db.profiles[userId];
    if ownerType == "agency" && p.role != AgencyAdmin {
      assert check == Reject(403, "Only agencies may cancel their subscription");
      return Response(403, ErrorBody("Only agencies may cancel their subscription"));
    }
    if ownerType == "clinic" && p.role != IndependentClinic {
      assert check == Reject(403, "Only independent clinics may cancel their plan");
      return Response(403, ErrorBody("Only independent clinics may cancel their plan"));
    }
    if (ownerType == "agency" && p.agencyId != Some(ownerId)) || (ownerType == "clinic" && p.clinicId != Some(ownerId)) {
      assert check == Reject(403, "Owner mismatch");
      return Response(403, ErrorBody("Owner mismatch"));
    }
    assert check == Pass(userId);
    db.subscriptions := CancelRows(db.subscriptions, ownerType, ownerId);
    return Response(200, CanceledBody);
  }

  /**
   * An agency admin asking for an agency other than its own is refused with 403 by both
   * provisioning and cancellation on a configured server.
   */
  lemma {:induction false} ForeignAgencyForbidden(
    sessions: map<string, string>, profiles: map<string, ProfileRow>, clinics: seq<ClinicRow>,
    token: string, agencyId: string, clinicId: string, username: string, password: string)
    requires token != "" && token in sessions && sessions[token] in profiles
    requires profiles[sessions[token]].role == AgencyAdmin && profiles[sessions[token]].agencyId != Some(agencyId)
    requires agencyId != "" && clinicId != "" && username != "" && password != ""
    ensures ProvisionCheck(ProvisionRequest(Some(clinicId), Some(username), Some(password), Some(agencyId)),
                           Some(Bearer + token), true, sessions, profiles, clinics) == Reject(403, "Forbidden")
    ensures CancelCheck(CancelRequest(Some("agency"), Some(agencyId)), Some(Bearer + token), true, sessions, profiles)
      == Reject(403, "Owner mismatch")
  {
    var header := Bearer + token;
    assert header[..|Bearer|] == Bearer;
    assert ProvisionToken(Some(header)) == Some(token);
    assert CancelToken(Some(header)) == Some(token);
  }

  /** Where cancellation lets a caller through, a known owner type means the caller owns that subscription. */
  lemma {:induction false} CancelPassMeansOwner(req: CancelRequest, header: Option<string>, configured: bool,
                                                sessions: map<string, string>, profiles: map<string, ProfileRow>)
    requires CancelCheck(req, header, configured, sessions, profiles).Pass?
    requires ParseOwnerType(req.ownerType.value).Some?
    ensures var p := profiles[CancelCheck(req, header, configured, sessions, profiles).callerId];
      match ParseOwnerType(req.ownerType.value).value
      case AgencyOwner => p.role == AgencyAdmin && p.agencyId == req.ownerId
      case ClinicOwner => p.role == IndependentClinic && p.clinicId == req.ownerId
  {
  }

  /** A managed clinic can never cancel any subscription whose owner type the table knows. */
  lemma {:induction false} ManagedClinicCannotCancel(req: CancelRequest, header: Option<string>, configured: bool,
                                                     sessions: map<string, string>, profiles: map<string, ProfileRow>)
    requires Resolves(CancelToken(header), sessions)
    requires sessions[CancelToken(header).value] in profiles
    requires profiles[sessions[CancelToken(header).value]].role == ManagedClinic
    requires req.ownerType == Some("agency") || req.ownerType == Some("clinic")
    ensures CancelCheck(req, header, configured, sessions, profiles).Reject?
  {
  }

  /**
   * On a configured server, an owner type the table does not know passes every check for any
   * profile, changes no row and is still answered 200.
   */
  lemma {:induction false} UnknownOwnerTypeCancelsNothing(req: CancelRequest, header: Option<string>,
                                                          sessions: map<string, string>, profiles: map<string, ProfileRow>,
                                                          subs: map<OwnerKey, SubscriptionRow>)
    requires Truthy(req.ownerType) && Truthy(req.ownerId) && ParseOwnerType(req.ownerType.value).None?
    requires Resolves(CancelToken(header), sessions) && sessions[CancelToken(header).value] in profiles
    ensures CancelCheck(req, header, true, sessions, profiles).Pass?
    ensures CancelRows(subs, req.ownerType.value, req.ownerId.value) == subs
  {
  }

  // ---------------------------------------------------------------------------------------------
  // The billing webhook

  datatype Metadata = Metadata(ownerType: Option<string>, ownerId: Option<string>)
  datatype Price = Price(name: Option<string>)
  datatype Item = Item(price: Option<Price>)
  datatype EventData = EventData(
    metadata: Option<Metadata>, status: Option<string>, plan: Option<string>, items: Option<seq<Item>>,
    nextBilledAt: Option<string>, id: Option<string>, subscriptionId: Option<string>)
  /** A billing-provider event; every part of it may be missing. */
  datatype Event = Event(data: Option<EventData>, metadata: Option<Metadata>, eventType: Option<string>)

  /** `event.data.metadata ?? event.metadata ?? {}` */
  function EventMetadata(e: Event): Metadata {
    if e.data.Some? && e.data.value.metadata.Some? then e.data.value.metadata.value
    else if e.metadata.Some? then e.metadata.value
    else Metadata(None, None)
  }

  /** `data.status ?? event_type ?? "active"` */
  function EventStatus(e: Event): (r: string)
    ensures e.data.Some? && e.data.value.status.Some? ==> r == e.data.value.status.value
    ensures (e.data.None? || e.data.value.status.None?) && e.eventType.Some? ==> r == e.eventType.value
    ensures (e.data.None? || e.data.value.status.None?) && e.eventType.None? ==> r == "active"
  {
    if e.data.Some? && e.data.value.status.Some? then e.data.value.status.value
    else e.eventType.GetOr("active")
  }

  /** The name of the first item's price, if there is one. */
  function FirstPriceName(d: EventData): (r: Option<string>)
    ensures r.Some? <==> d.items.Some? && |d.items.value| > 0 && d.items.value[0].price.Some? && d.items.value[0].price.value.name.Some?
    ensures r.Some? ==> r.value == d.items.value[0].price.value.name.value
  {
    if d.items.Some? && |d.items.value| > 0 && d.items.value[0].price.Some? then d.items.value[0].price.value.name
    else None
  }

  /** `data.plan ?? data.items[0].price.name ?? "usage_only"` */
  function EventPlan(e: Event): (r: string)
    ensures e.data.Some? && e.data.value.plan.Some? ==> r == e.data.value.plan.value
    ensures e.data.Some? && e.data.value.plan.None? ==> r == FirstPriceName(e.data.value).GetOr("usage_only")
    ensures e.data.None? ==> r == "usage_only"
  {
    if e.data.None? then "usage_only"
    else if e.data.value.plan.Some? then e.data.value.plan.value
    else FirstPriceName(e.data.value).GetOr("usage_only")
  }

  /** `data.id ?? data.subscription_id ?? null` */
  function EventSubscriptionId(e: Event): Option<string> {
    if e.data.None? then None
    else if e.data.value.id.Some? then e.data.value.id
    else e.data.value.subscriptionId
  }

  /** `data.next_billed_at ?? null` */
  function EventPeriodEnd(e: Event): Option<string> {
    if e.data.None? then None else e.data.value.nextBilledAt
  }

  /** The row key is the one the metadata names. */
  predicate OwnerMatches(k: OwnerKey, m: Metadata) {
    m.ownerType == Some(k.ownerType.Name()) && m.ownerId == Some(k.ownerId)
  }

  /** The event names its owner. */
  predicate HasOwner(e: Event) {
    Truthy(EventMetadata(e).ownerType) && Truthy(EventMetadata(e).ownerId)
  }

  /**
   * The table after the upsert of an event: the owner's row (or a new row with the column
   * defaults) takes the event's status, plan, subscription id and period end. The store refuses a
   * row whose owner type or status is not one of the column's values, and nothing changes.
   */
  function WebhookRows(subs: map<OwnerKey, SubscriptionRow>, e: Event): (r: map<OwnerKey, SubscriptionRow>)
    ensures !HasOwner(e) ==> r == subs
    ensures forall k :: k in subs && !OwnerMatches(k, EventMetadata(e)) ==> k in r && r[k] == subs[k]
    ensures HasOwner(e) && ParseOwnerType(EventMetadata(e).ownerType.value).Some? && ParseSubscriptionStatus(EventStatus(e)).Some? ==>
      var key := OwnerKey(ParseOwnerType(EventMetadata(e).ownerType.value).value, EventMetadata(e).ownerId.value);
      && r.Keys == subs.Keys + {key}
      && r[key].status.Name() == EventStatus(e)
      && r[key].plan == Some(EventPlan(e))
      && r[key].paddleSubscriptionId == EventSubscriptionId(e)
      && r[key].currentPeriodEnd == EventPeriodEnd(e)
      && r[key].billingEmail == (if key in subs then subs[key].billingEmail else None)
    ensures HasOwner(e) && (ParseOwnerType(EventMetadata(e).ownerType.value).None? || ParseSubscriptionStatus(EventStatus(e)).None?) ==>
      r == subs
  {
    if !HasOwner(e) then subs
    else
      var m := EventMetadata(e);
      match (ParseOwnerType(m.ownerType.value), ParseSubscriptionStatus(EventStatus(e)))
      case (Some(t), Some(status)) =>
        var key := OwnerKey(t, m.ownerId.value);
        var base := if key in subs then subs[key] else DefaultSubscription();
        subs[key := base.(status := status, plan := Some(EventPlan(e)),
                          paddleSubscriptionId := EventSubscriptionId(e), currentPeriodEnd := EventPeriodEnd(e))]
      case _ => subs
  }

  /** Delivering the same event twice leaves the table as delivering it once. */
  lemma {:induction false} WebhookIdempotent(subs: map<OwnerKey, SubscriptionRow>, e: Event)
    ensures WebhookRows(WebhookRows(subs, e), e) == WebhookRows(subs, e)
  {
  }

  /**
   * `POST /api/webhooks/paddle`: 500 before anything else when the server's environment lacks the
   * database URL or the service key; then 202 without an owner, otherwise 200 whatever the store
   * answered.
   */
  method HandleBillingWebhook(db: Store, e: Event, configured: bool) returns (resp: Response)
    modifies db
    ensures !configured ==> resp == Response(500, ErrorBody("Webhook error")) && unchanged(db)
    ensures configured && !HasOwner(e) ==> resp == Response(202, EmptyBody) && unchanged(db)
    ensures configured && HasOwner(e) ==> resp == Response(200, ReceivedBody)
    ensures configured ==> db.subscriptions == WebhookRows(old(db.subscriptions), e)
    ensures db.authUsers == old(db.authUsers) && db.sessions == old(db.sessions)
    ensures db.profiles == old(db.profiles) && db.clinics == old(db.clinics) && db.calls == old(db.calls)
  {
    if !configured {
      return Response(500, ErrorBody("Webhook error"));
    }
    var metadata := EventMetadata(e);
    if !Truthy(metadata.ownerType) || !Truthy(metadata.ownerId) {
      return Response(202, EmptyBody);
    }
    var status := EventStatus(e);
    var plan := EventPlan(e);
    var periodEnd := EventPeriodEnd(e);
    var subscriptionId := EventSubscriptionId(e);
    var ownerType := ParseOwnerType(metadata.ownerType.value);
    var parsedStatus := ParseSubscriptionStatus(status);
    // the upsert's error is not looked at
    if ownerType.Some? && parsedStatus.Some? {
      var key := OwnerKey(ownerType.value, metadata.ownerId.value);
      var base := if key in db.subscriptions then db.subscriptions[key] else DefaultSubscription();
      db.subscriptions := db.subscriptions[key := base.(status := parsedStatus.value, plan := Some(plan),
                                                         paddleSubscriptionId := subscriptionId, currentPeriodEnd := periodEnd)];
    }
    return Response(200, ReceivedBody);
  }

  // ---------------------------------------------------------------------------------------------
  // Start-up

  const PortSearchWidth: int := 20

  /** The least port in `[start, start + 20)` that `available` accepts, or an error when none does. */
  method FindAvailablePort(available: int -> bool, start: int := 3000) returns (r: Result<int, string>)
    ensures r.Ok? ==> start <= r.value < start + PortSearchWidth && available(r.value)
    ensures r.Ok? ==> forall p :: start <= p < r.value ==> !available(p)
    ensures r.Err? ==> forall p :: start <= p < start + PortSearchWidth ==> !available(p)
    ensures r.Err? ==> r.error == "No available port found starting from " + IntToString(start)
  {
    var port := start;
    while port < start + PortSearchWidth
      invariant start <= port <= start + PortSearchWidth
      invariant forall p :: start <= p < port ==> !available(p)
    {
      if available(port) {
        return Ok(port);
      }
      port := port + 1;
    }
    return Err("No available port found starting from " + IntToString(start));
  }
}
