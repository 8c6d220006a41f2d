/**
 * The authentication context: the signed-in user, session and profile, the loading and error
 * flags, and the copy of the profile kept in local storage under `vocalize_profile`.
 */
module AuthContext {
  import opened Util
  import opened Schema
  import opened ClientTypes
  import opened Browser

  /**
   * The metadata the identity provider keeps on a user (absent and `null` are both `None`). It is
   * free-form: the role is whatever string was stored, not necessarily one of the three roles.
   */
  datatype UserMetadata = UserMetadata(role: Option<string>, agencyId: Option<string>, clinicId: Option<string>)

  /** An identity-provider user. */
  datatype User = User(id: string, email: Option<string>, metadata: UserMetadata)

  datatype Session = Session(accessToken: string, user: User)

  datatype AuthError = AuthError(message: string)

  /** The identity provider as the client sees it: not configured, or configured and giving this reply. */
  datatype Backend<R> = Offline | Online(reply: R)

  datatype SignInReply = SignInRejected(error: AuthError) | SignedIn(session: Option<Session>, user: Option<User>)
  datatype SignUpReply = SignUpRejected(error: AuthError) | SignedUp(user: Option<User>)

  /** The context's state, apart from storage. */
  datatype AuthState = AuthState(
    user: Option<User>, session: Option<Session>, profile: Option<Profile>,
    loading: bool, error: Option<AuthError>)

  const ProfileKey: string := "vocalize_profile"

  /** The role string a user's profile is built from: the metadata's (even an empty one), else the hint's. */
  function RoleText(m: UserMetadata, roleHint: Option<Role>): Option<string> {
    if m.role.Some? then m.role else if roleHint.Some? then Some(roleHint.value.Name()) else None
  }

  /**
   * The profile a user carries: none without a user, and none when the role string is empty or
   * missing; the role in the user's metadata wins over the hint, even when it is empty; the tenant
   * ids come from the metadata.
   */
  function DeriveProfileFromUser(user: Option<User>, roleHint: Option<Role>): (r: Option<Profile>)
    ensures user.None? ==> r.None?
    ensures user.Some? && !Truthy(RoleText(user.value.metadata, roleHint)) ==> r.None?
    ensures user.Some? && user.value.metadata.role == Some("") ==> r.None?
    ensures user.Some? ==>
      (r.Some? <==> RoleText(user.value.metadata, roleHint).Some? && ParseRole(RoleText(user.value.metadata, roleHint).value).Some?)
    ensures user.Some? && user.value.metadata.role.None? && roleHint.Some? ==> r.Some? && r.value.role == roleHint.value
    ensures r.Some? ==>
      && r.value.role.Name() == RoleText(user.value.metadata, roleHint).value
      && r.value.id == user.value.id
      && r.value.email == user.value.email
      && r.value.agencyId == user.value.metadata.agencyId
      && r.value.clinicId == user.value.metadata.clinicId
  {
    if user.None? then None
    else
      var u := user.value;
      var role := RoleText(u.metadata, roleHint);
      if !Truthy(role) then None
      else match ParseRole(role.value)
        case Some(known) => Some(Profile(u.id, u.email, known, u.metadata.agencyId, u.metadata.clinicId))
        // a role string outside the three roles: see the model's notes on unknown roles
        case None => None
  }

  /** A stored empty role overrides the hint: the source's `??` keeps `""`, and `!role` then yields no profile. */
  lemma {:induction false} EmptyMetadataRoleOverridesHint(id: string, email: Option<string>, agencyId: Option<string>,
                                                         clinicId: Option<string>, roleHint: Role)
    ensures DeriveProfileFromUser(Some(User(id, email, UserMetadata(Some(""), agencyId, clinicId))), Some(roleHint)).None?
    ensures DeriveProfileFromUser(Some(User(id, email, UserMetadata(None, agencyId, clinicId))), Some(roleHint))
            == Some(Profile(id, email, roleHint, agencyId, clinicId))
  {
    assert RoleText(UserMetadata(None, agencyId, clinicId), Some(roleHint)) == Some(roleHint.Name());
  }

  /**
   * The profile an unconfigured client signs in with: the hinted role (an independent clinic
   * without a hint), and a clinic id that is empty when a hint was given and fresh otherwise.
   */
  function OfflineSignInProfile(email: string, roleHint: Option<Role>, freshId: string, freshClinicId: string): (p: Profile)
    ensures p.id == freshId && p.email == Some(email) && p.agencyId.None?
    ensures p.role == (if roleHint.Some? then roleHint.value else IndependentClinic)
    ensures roleHint.Some? ==> p.clinicId == Some("")
    ensures roleHint.None? ==> p.clinicId == Some(freshClinicId)
  {
    Profile(freshId, Some(email), roleHint.GetOr(IndependentClinic), None,
            Some(if roleHint.Some? then "" else freshClinicId))
  }

  /**
   * The profile kept after an accepted sign-up: the derived one (the role hint is an independent
   * clinic), or, when nothing is derived, an independent-clinic profile under the returned user's
   * id (a fresh id when no user came back) with a fresh clinic id.
   */
  function SignUpProfile(user: Option<User>, email: string, freshId: string, freshClinicId: string): (p: Profile)
    ensures user.Some? ==> p.id == user.value.id
    ensures user.None? ==> p == Profile(freshId, Some(email), IndependentClinic, None, Some(freshClinicId))
    ensures user.Some? && user.value.metadata.role.Some? && ParseRole(user.value.metadata.role.value).Some? ==>
      p == Profile(user.value.id, user.value.email, ParseRole(user.value.metadata.role.value).value,
                   user.value.metadata.agencyId, user.value.metadata.clinicId)
    ensures user.Some? && user.value.metadata.role.None? ==>
      p == Profile(user.value.id, user.value.email, IndependentClinic,
                   user.value.metadata.agencyId, user.value.metadata.clinicId)
    ensures user.Some? && user.value.metadata.role.Some? && ParseRole(user.value.metadata.role.value).None? ==>
      p == Profile(user.value.id, Some(email), IndependentClinic, None, Some(freshClinicId))
  {
    match DeriveProfileFromUser(user, Some(IndependentClinic))
    case Some(d) => d
    case None => Profile(if user.Some? then user.value.id else freshId, Some(email), IndependentClinic, None, Some(freshClinicId))
  }

  /** The profile found in storage when the context starts (`null` when the key is missing). */
  function StoredProfile(entries: map<string, Stored>): Option<Profile> {
    if ProfileKey in entries && entries[ProfileKey].ProfileJson? then Some(entries[ProfileKey].profile) else None
  }

  /** Storage after `saveProfile(next)`: the profile is written, or the key removed for `null`. */
  function SaveProfileEntries(entries: map<string, Stored>, next: Option<Profile>): (r: map<string, Stored>)
    ensures forall k :: k != ProfileKey ==> (k in r <==> k in entries) && (k in entries ==> r[k] == entries[k])
    ensures ProfileKey in r <==> next.Some?
  {
    if next.Some? then entries[ProfileKey := ProfileJson(next.value)] else entries - {ProfileKey}
  }

  /** Reading storage back after `saveProfile(next)` gives `next`: storage mirrors the profile. */
  lemma {:induction false} SaveThenLoad(entries: map<string, Stored>, next: Option<Profile>)
    ensures StoredProfile(SaveProfileEntries(entries, next)) == next
  {
  }

  /** State after `signInWithEmail(email, _, roleHint)` given the provider's reply. */
  function SignInOutcome(s: AuthState, email: string, roleHint: Option<Role>, backend: Backend<SignInReply>,
                         freshId: string, freshClinicId: string): (r: AuthState)
    ensures !r.loading
    ensures backend.Offline? ==>
      r == s.(profile := Some(OfflineSignInProfile(email, roleHint, freshId, freshClinicId)), loading := false, error := None)
    ensures backend.Online? && backend.reply.SignInRejected? ==>
      r == s.(loading := false, error := Some(backend.reply.error))
    ensures backend.Online? && backend.reply.SignedIn? ==>
      && r.error.None?
      && r.session == backend.reply.session
      && r.user == backend.reply.user
      && r.profile == DeriveProfileFromUser(backend.reply.user, roleHint)
  {
    match backend
    case Offline =>
      s.(profile := Some(OfflineSignInProfile(email, roleHint, freshId, freshClinicId)), loading := false, error := None)
    case Online(SignInRejected(e)) =>
      s.(loading := false, error := Some(e))
    case Online(SignedIn(session, user)) =>
      s.(session := session, user := user, profile := DeriveProfileFromUser(user, roleHint), loading := false, error := None)
  }

  /** State after `signUpIndependentClinic` given the provider's reply. */
  function SignUpOutcome(s: AuthState, email: string, backend: Backend<SignUpReply>,
                         freshId: string, freshClinicId: string): (r: AuthState)
    ensures !r.loading
    ensures backend.Offline? ==>
      r == s.(profile := Some(Profile(freshId, Some(email), IndependentClinic, None, Some(freshClinicId))), loading := false, error := None)
    ensures backend.Online? && backend.reply.SignUpRejected? ==>
      r == s.(loading := false, error := Some(backend.reply.error))
    ensures backend.Online? && backend.reply.SignedUp? ==>
      r == s.(profile := Some(SignUpProfile(backend.reply.user, email, freshId, freshClinicId)), loading := false, error := None)
  {
    match backend
    case Offline =>
      s.(profile := Some(Profile(freshId, Some(email), IndependentClinic, None, Some(freshClinicId))), loading := false, error := None)
    case Online(SignUpRejected(e)) =>
      s.(loading := false, error := Some(e))
    case Online(SignedUp(user)) =>
      s.(profile := Some(SignUpProfile(user, email, freshId, freshClinicId)), loading := false, error := None)
  }

  /**
   * With a role hint, an offline sign-in always leaves a profile with the hinted role; an accepted
   * one that returns a user leaves a profile exactly when the user's metadata names no role or one
   * of the three, and its role is the metadata's, or else the hint.
   */
  lemma {:induction false} HintedSignInProfile(s: AuthState, email: string, role: Role, backend: Backend<SignInReply>,
                                               freshId: string, freshClinicId: string)
    requires backend.Offline? || (backend.reply.SignedIn? && backend.reply.user.Some?)
    ensures var r := SignInOutcome(s, email, Some(role), backend, freshId, freshClinicId);
      (backend.Offline? ==> r.profile.Some? && r.profile.value.role == role) &&
      (backend.Online? ==>
         var m := backend.reply.user.value.metadata;
         (r.profile.Some? <==> m.role.None? || ParseRole(m.role.value).Some?) &&
         (r.profile.Some? ==> r.profile.value.role == if m.role.Some? then ParseRole(m.role.value).value else role))
  {
    if backend.Online? {
      var m := backend.reply.user.value.metadata;
      if m.role.Some? && ParseRole(m.role.value).Some? {
        var known := ParseRole(m.role.value).value;
        assert known.Name() == m.role.value;
      }
    }
  }

  /** The context object. */
  class AuthProvider {
    var user: Option<User>
    var session: Option<Session>
    var profile: Option<Profile>
    var loading: bool
    var error: Option<AuthError>
    const storage: LocalStorage

    function State(): AuthState
      reads this
    {
      AuthState(user, session, profile, loading, error)
    }

    /** The in-memory profile and the stored one agree. */
    predicate Mirrored()
      reads this, storage
    {
      profile == StoredProfile(storage.entries)
    }

    /** The context starts signed out, with the profile read back from storage. */
    constructor (storage: LocalStorage)
      ensures this.storage == storage
      ensures State() == AuthState(None, None, StoredProfile(storage.entries), false, None)
      ensures Mirrored()
    {
      this.storage := storage;
      user := None;
      session := None;
      profile := StoredProfile(storage.entries);
      loading := false;
      error := None;
    }

    /** `saveProfile` (also the profile override): set the profile and mirror it into storage. */
    method SaveProfile(next: Option<Profile>)
      modifies this, storage
      ensures State() == old(State()).(profile := next)
      ensures storage.entries == SaveProfileEntries(old(storage.entries), next)
      ensures Mirrored()
    {
      profile := next;
      if next.Some? {
        storage.SetItem(ProfileKey, ProfileJson(next.value));
      } else {
        storage.RemoveItem(ProfileKey);
      }
      SaveThenLoad(old(storage.entries), next);
    }

    method SignInWithEmail(email: string, password: string, roleHint: Option<Role>, backend: Backend<SignInReply>,
                           freshId: string, freshClinicId: string)
      requires Mirrored()
      modifies this, storage
      ensures State() == SignInOutcome(old(State()), email, roleHint, backend, freshId, freshClinicId)
      ensures storage.entries ==
        if backend.Online? && backend.reply.SignInRejected? then old(storage.entries)
        else SaveProfileEntries(old(storage.entries), profile)
      ensures Mirrored()
    {
      loading := true;
      error := None;
      if backend.Online? {
        loading := false;
        if backend.reply.SignInRejected? {
          error := Some(backend.reply.error);
          return;
        }
        session := backend.reply.session;
        user := backend.reply.user;
        var derived := DeriveProfileFromUser(backend.reply.user, roleHint);
        SaveProfile(derived);
        return;
      }
      var fallback := OfflineSignInProfile(email, roleHint, freshId, freshClinicId);
      SaveProfile(Some(fallback));
      loading := false;
    }

    /** `signInManagedClinic(username, password)` is an email sign-in hinted as a managed clinic. */
    method SignInManagedClinic(username: string, password: string, backend: Backend<SignInReply>,
                               freshId: string, freshClinicId: string)
      requires Mirrored()
      modifies this, storage
      ensures State() == SignInOutcome(old(State()), username, Some(ManagedClinic), backend, freshId, freshClinicId)
      ensures storage.entries ==
        if backend.Online? && backend.reply.SignInRejected? then old(storage.entries)
        else SaveProfileEntries(old(storage.entries), profile)
      ensures Mirrored()
    {
      SignInWithEmail(username, password, Some(ManagedClinic), backend, freshId, freshClinicId);
    }

    /** `signUpIndependentClinic({name, email, password})`; the name only reaches the identity provider. */
    method SignUpIndependentClinic(name: string, email: string, password: string, backend: Backend<SignUpReply>,
                                   freshId: string, freshClinicId: string)
      requires Mirrored()
      modifies this, storage
      ensures State() == SignUpOutcome(old(State()), email, backend, freshId, freshClinicId)
      ensures storage.entries ==
        if backend.Online? && backend.reply.SignUpRejected? then old(storage.entries)
        else SaveProfileEntries(old(storage.entries), profile)
      ensures Mirrored()
    {
      loading := true;
      error := None;
      if backend.Online? {
        loading := false;
        if backend.reply.SignUpRejected? {
          error := Some(backend.reply.error);
          return;
        }
        var p := SignUpProfile(backend.reply.user, email, freshId, freshClinicId);
        SaveProfile(Some(p));
        return;
      }
      SaveProfile(Some(Profile(freshId, Some(email), IndependentClinic, None, Some(freshClinicId))));
      loading := false;
    }

    /** `signOut`: whatever the provider answers, the profile, session and user are cleared and the stored profile removed. */
    method SignOut(backend: Backend<Option<AuthError>>)
      modifies this, storage
      ensures State() == AuthState(None, None, None, false,
                                   if backend.Online? then backend.reply else None)
      ensures storage.entries == old(storage.entries) - {ProfileKey}
      ensures Mirrored()
    {
      loading := true;
      error := None;
      if backend.Online? {
        if backend.reply.Some? {
          error := backend.reply;
        }
      }
      SaveProfile(None);
      session := None;
      user := None;
      loading := false;
    }

    /** The provider's auth-state callback: adopt the new session and the profile derived from its user. */
    method OnAuthStateChange(newSession: Option<Session>)
      modifies this, storage
      ensures session == newSession
      ensures user == (if newSession.Some? then Some(newSession.value.user) else None)
      ensures profile == DeriveProfileFromUser(user, None)
      ensures loading == old(loading) && error == old(error)
      ensures storage.entries == SaveProfileEntries(old(storage.entries), profile)
      ensures Mirrored()
    {
      session := newSession;
      user := if newSession.Some? then Some(newSession.value.user) else None;
      var derived := DeriveProfileFromUser(user, None);
      profile := derived;
      if derived.Some? {
        storage.SetItem(ProfileKey, ProfileJson(derived.value));
      } else {
        storage.RemoveItem(ProfileKey);
      }
      SaveThenLoad(old(storage.entries), derived);
    }

    /** Start-up: adopt the existing session; a derivable profile replaces the current one and is stored. */
    method LoadInitialSession(existing: Option<Session>)
      requires Mirrored()
      modifies this, storage
      ensures session == existing
      ensures user == (if existing.Some? then Some(existing.value.user) else None)
      ensures var derived := DeriveProfileFromUser(user, None);
        profile == (if derived.Some? then derived else old(profile)) &&
        storage.entries == (if derived.Some? then SaveProfileEntries(old(storage.entries), derived) else old(storage.entries))
      ensures loading == old(loading) && error == old(error)
      ensures Mirrored()
    {
      session := existing;
      user := if existing.Some? then Some(existing.value.user) else None;
      var derived := DeriveProfileFromUser(user, None);
      if derived.Some? {
        profile := derived;
        storage.SetItem(ProfileKey, ProfileJson(derived.value));
        SaveThenLoad(old(storage.entries), derived);
      }
    }
  }
}
