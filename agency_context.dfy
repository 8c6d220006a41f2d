/**
 * The agency session: an agency id, a token and the agency record, each mirrored into its own
 * local-storage key so that a reload restores the session.
 */
module AgencyContext {
  import opened Util
  import opened ClientTypes
  import opened Browser

  const AgencyIdKey: string := "agencyId"
  const TokenKey: string := "token"
  const AgencyKey: string := "agency"

  datatype AgencySession = AgencySession(agencyId: Option<string>, token: Option<string>, agency: Option<Agency>)

  /** A plain string item (`getItem`); an item never written by this context reads as missing. */
  function TextItem(entries: map<string, Stored>, key: string): Option<string> {
    if key in entries && entries[key].Text? then Some(entries[key].text) else None
  }

  /** The session read from storage at start-up; an empty `agency` item reads as `null`. */
  function ReadSession(entries: map<string, Stored>): (r: AgencySession)
    ensures AgencyIdKey in entries && entries[AgencyIdKey].Text? ==> r.agencyId == Some(entries[AgencyIdKey].text)
    ensures TokenKey in entries && entries[TokenKey].Text? ==> r.token == Some(entries[TokenKey].text)
    ensures AgencyKey in entries && entries[AgencyKey].AgencyJson? ==> r.agency == Some(entries[AgencyKey].agency)
    ensures AgencyIdKey !in entries ==> r.agencyId.None?
    ensures TokenKey !in entries ==> r.token.None?
    ensures AgencyKey !in entries ==> r.agency.None?
  {
    AgencySession(
      TextItem(entries, AgencyIdKey),
      TextItem(entries, TokenKey),
      if AgencyKey in entries && entries[AgencyKey].AgencyJson? then Some(entries[AgencyKey].agency) else None)
  }

  /** Storage after `login`: the three items written, everything else untouched. */
  function LoginEntries(entries: map<string, Stored>, agencyId: string, token: string, agency: Agency): (r: map<string, Stored>)
    ensures r.Keys == entries.Keys + {AgencyIdKey, TokenKey, AgencyKey}
    ensures forall k :: k in entries && k !in {AgencyIdKey, TokenKey, AgencyKey} ==> r[k] == entries[k]
    ensures r[AgencyIdKey] == Text(agencyId) && r[TokenKey] == Text(token) && r[AgencyKey] == AgencyJson(agency)
  {
    entries[AgencyIdKey := Text(agencyId)][TokenKey := Text(token)][AgencyKey := AgencyJson(agency)]
  }

  /** Storage after `logout`: the three items removed, everything else untouched. */
  function LogoutEntries(entries: map<string, Stored>): (r: map<string, Stored>)
    ensures r.Keys == entries.Keys - {AgencyIdKey, TokenKey, AgencyKey}
    ensures forall k :: k in r ==> r[k] == entries[k]
  {
    entries - {AgencyIdKey, TokenKey, AgencyKey}
  }

  /** `isAuthenticated`: both the agency id and the token are present and non-empty. */
  function IsAuthenticated(s: AgencySession): (r: bool)
    ensures r <==> Truthy(s.agencyId) && Truthy(s.token)
  {
    s.agencyId.Some? && s.agencyId.value != "" && s.token.Some? && s.token.value != ""
  }

  /** Reloading after `login` restores exactly what was logged in. */
  lemma {:induction false} LoginSurvivesReload(entries: map<string, Stored>, agencyId: string, token: string, agency: Agency)
    ensures ReadSession(LoginEntries(entries, agencyId, token, agency)) == AgencySession(Some(agencyId), Some(token), Some(agency))
  {
    var r := LoginEntries(entries, agencyId, token, agency);
    assert r[AgencyIdKey] == Text(agencyId);
    assert r[TokenKey] == Text(token);
  }

  /** Reloading after `logout` restores no session. */
  lemma {:induction false} LogoutSurvivesReload(entries: map<string, Stored>)
    ensures ReadSession(LogoutEntries(entries)) == AgencySession(None, None, None)
    ensures !IsAuthenticated(ReadSession(LogoutEntries(entries)))
  {
  }

  class AgencyProvider {
    var agencyId: Option<string>
    var token: Option<string>
    var agency: Option<Agency>
    const storage: LocalStorage

    function Session(): AgencySession
      reads this
    {
      AgencySession(agencyId, token, agency)
    }

    /** The session a reload would read back is the current one. */
    predicate Persisted()
      reads this, storage
    {
      Session() == ReadSession(storage.entries)
    }

    constructor (storage: LocalStorage)
      ensures this.storage == storage
      ensures Session() == ReadSession(storage.entries)
      ensures Persisted()
    {
      this.storage := storage;
      agencyId := TextItem(storage.entries, AgencyIdKey);
      token := TextItem(storage.entries, TokenKey);
      agency := if AgencyKey in storage.entries && storage.entries[AgencyKey].AgencyJson?
                then Some(storage.entries[AgencyKey].agency) else None;
    }

    method Login(newAgencyId: string, newToken: string, newAgency: Agency)
      modifies this, storage
      ensures Session() == AgencySession(Some(newAgencyId), Some(newToken), Some(newAgency))
      ensures storage.entries == LoginEntries(old(storage.entries), newAgencyId, newToken, newAgency)
      ensures IsAuthenticated(Session()) <==> newAgencyId != "" && newToken != ""
      ensures Persisted()
    {
      agencyId := Some(newAgencyId);
      token := Some(newToken);
      agency := Some(newAgency);
      storage.SetItem(AgencyIdKey, Text(newAgencyId));
      storage.SetItem(TokenKey, Text(newToken));
      storage.SetItem(AgencyKey, AgencyJson(newAgency));
      LoginSurvivesReload(old(storage.entries), newAgencyId, newToken, newAgency);
    }

    method Logout()
      modifies this, storage
      ensures Session() == AgencySession(None, None, None)
      ensures storage.entries == LogoutEntries(old(storage.entries))
      ensures !IsAuthenticated(Session())
      ensures Persisted()
    {
      agencyId := None;
      token := None;
      agency := None;
      storage.RemoveItem(AgencyIdKey);
      storage.RemoveItem(TokenKey);
      storage.RemoveItem(AgencyKey);
      LogoutSurvivesReload(old(storage.entries));
    }
  }
}
