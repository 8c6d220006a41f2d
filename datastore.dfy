/**
 * The hosted database and identity provider, held in memory: auth users, access tokens, and the
 * profiles, clinics, calls and subscriptions tables.
 */
module Datastore {
  import opened Util
  import opened Schema

  /** The clinic row with this primary key, if any. */
  function FindClinic(clinics: seq<ClinicRow>, id: string): (r: Option<ClinicRow>)
    ensures r.Some? ==> r.value in clinics && r.value.id == id
    ensures r.None? ==> forall i :: 0 <= i < |clinics| ==> clinics[i].id != id
  {
    if clinics == [] then None
    else if clinics[0].id == id then Some(clinics[0])
    else
      var r := FindClinic(clinics[1..], id);
      assert forall i :: 1 <= i < |clinics| ==> clinics[i] == clinics[1..][i - 1];
      r
  }

  /** No two clinic rows share a primary key. */
  predicate UniqueClinicIds(clinics: seq<ClinicRow>) {
    forall i, j :: 0 <= i < j < |clinics| ==> clinics[i].id != clinics[j].id
  }

  /** Every profile is stored under its own id. */
  predicate ProfilesKeyed(profiles: map<string, ProfileRow>) {
    forall id :: id in profiles ==> profiles[id].id == id
  }

  /** Appending a row whose key is new keeps the clinic keys unique. */
  lemma {:induction false} AppendFreshClinic(clinics: seq<ClinicRow>, c: ClinicRow)
    requires UniqueClinicIds(clinics)
    requires FindClinic(clinics, c.id).None?
    ensures UniqueClinicIds(clinics + [c])
    ensures FindClinic(clinics + [c], c.id) == Some(c)
  {
    var all := clinics + [c];
    if FindClinic(all, c.id) != Some(c) {
      FindFirst(all, c.id, |clinics|);
    }
  }

  /** With unique keys, the lookup finds the row at any position that carries the key. */
  lemma {:induction false} FindFirst(clinics: seq<ClinicRow>, id: string, k: nat)
    requires k < |clinics| && clinics[k].id == id
    requires forall i :: 0 <= i < k ==> clinics[i].id != id
    ensures FindClinic(clinics, id) == Some(clinics[k])
  {
    if k > 0 {
      FindFirst(clinics[1..], id, k - 1);
    }
  }

  class Store {
    /** Identity-provider users: id to email. */
    var authUsers: map<string, string>
    /** Access tokens the identity provider accepts, with the user each belongs to. */
    var sessions: map<string, string>
    var profiles: map<string, ProfileRow>
    var clinics: seq<ClinicRow>
    var calls: seq<CallRow>
    var subscriptions: map<OwnerKey, SubscriptionRow>

    /** The primary keys hold. */
    predicate Valid()
      reads this
    {
      ProfilesKeyed(profiles) && UniqueClinicIds(clinics)
    }

    constructor ()
      ensures Valid()
      ensures authUsers == map[] && sessions == map[] && profiles == map[]
      ensures clinics == [] && calls == [] && subscriptions == map[]
    {
      authUsers := map[];
      sessions := map[];
      profiles := map[];
      clinics := [];
      calls := [];
      subscriptions := map[];
    }
  }
}
