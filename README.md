# Vocalize Enterprise access control and provisioning, in Dafny

This project models the role-based access control of the Vocalize Enterprise receptionist
platform, and what happens to its tenant tables when access is granted. There are three roles:
`agency_admin`, `managed_clinic` and `independent_clinic`. The model covers:

- the route guards and the client's route table, with the `RequireRole` wrapper;
- the post-login redirects of the agency login, clinic login and clinic sign-up screens;
- the authentication context, whose profile is mirrored into local storage;
- the agency token session, whose three items are mirrored into local storage;
- the server's managed-clinic provisioning, subscription cancellation and billing-webhook
  handlers, over an in-memory copy of the hosted tables, and its start-up port search;
- the browser's provisioning sequences and list readers;
- the clinic switcher;
- the agency dashboard's clinic list, with its username slug;
- the clinic dashboard's call-volume, appointment, duration and status views.

Decisions that are pure case analyses are functions, and lemmas state their properties. Code
that changes state step by step is modelled as classes, or as methods over the `Datastore.Store`
class. These have `modifies` clauses, and their contracts give the whole new state in terms of
those functions. Local storage is the `Browser.LocalStorage` class, which holds a map from key to
stored value. Two invariants are preserved:

- `AuthContext.AuthProvider.Mirrored`: the in-memory profile equals the stored one;
- `AgencyContext.AgencyProvider.Persisted`: a reload reads back the current agency session.

The source has three inconsistencies, and they are modelled as written:

- An `agency_admin` on `/clinic`: the route table redirects to `/auth/clinic-login`, the clinic
  guard to `/`. A visitor with no profile on `/clinic/billing`: the table redirects to `/clinic`,
  the guard to `/auth/clinic-login`. `AppRoutes.ClinicRedirectsDisagree` states both cases.
- Provisioning takes a token only from a header that starts with `Bearer `. Cancellation removes
  the first `Bearer ` wherever it occurs, and takes any other header whole as the token.
  `Server.TokenRulesDiffer` states the difference.
- The router matches paths without regard to letter case, while the clinic guard compares
  prefixes case-sensitively. `/CLINIC` therefore reaches the clinic dashboard's wrapper, which
  refuses an agency admin, while the guard on its own would let that admin through.
  `AppRoutes.UpperCaseClinicPathEscapesGuard` states the case.

Files, leaf first:

- `util.dfy`: Option/Result, prefix and substring helpers, JS-style `replace`, numerals, filter,
  and a descending sort.
- `schema.dfy`: roles, enumerated columns, table rows and the subscription defaults.
- `client_types.dfy`: the client's profile, agency and stored values.
- `browser.dfy`: local storage and the location.
- `access.dfy`, `app_routes.dfy`: the route guards and the route table.
- `auth_context.dfy`, `agency_context.dfy`: the two contexts.
- `agency_login.dfy`, `clinic_login.dfy`, `clinic_signup.dfy`: the three auth screens.
- `datastore.dfy`: the hosted tables.
- `server.dfy`: the server handlers and the port search.
- `supabase_profiles.dfy`: the browser's data service.
- `clinic_switcher.dfy`, `agency_dashboard.dfy`, `clinic_dashboard.dfy`: the list and
  aggregation logic.

## Model

| member | source | states |
|---|---|---|
| Schema.ParseRole | client/src/const.ts:5-11 | a role string parses exactly when it is the name of one of the three roles, and to that role |
| Schema.ParseOwnerType | drizzle/schema.ts:88 | only `agency` and `clinic` name an owner type |
| Schema.ParseSubscriptionStatus | drizzle/schema.ts:91 | only the four enum values name a subscription status |
| Schema.DefaultSubscription | drizzle/schema.ts:91-92 | a new subscription row defaults to status `trialing` and plan `usage_only`, with the nullable columns null |
| Access.CanAccessClinicBilling | client/src/lib/access.ts:3-5 | true exactly for `independent_clinic` |
| Access.CanAccessAgency | client/src/lib/access.ts:7-13 | false without a role; on a path starting `/agency`, true iff the role is `agency_admin`; on any other path, true for any role |
| Access.GuardClinicRoute | client/src/lib/access.ts:15-24 | allowed iff there is a role, a `/clinic/billing` path has `independent_clinic` and a `/clinic` path has a clinic role; allowed iff there is no redirect; no role goes to the clinic login; a refused role goes to `/clinic` from billing and to `/` elsewhere |
| Access.GuardAgencyRoute | client/src/lib/access.ts:26-31 | allowed iff the role is `agency_admin`; a denial, also for no role, redirects to `/auth/agency-login`, an allowance carries no redirect |
| Access.BillingIsClinicPath | client/src/lib/access.ts:17-20 | every `/clinic/billing` path is also a `/clinic` path, so the billing rule is checked before the clinic rule on the same paths |
| Access.NoRoleGoesToClinicLogin | client/src/lib/access.ts:16 | with no role, every path is refused with a redirect to `/auth/clinic-login` |
| Access.ManagedClinicNeverBills | client/src/lib/access.ts:17-19 | a managed clinic is refused on every `/clinic/billing` path, with a redirect to `/clinic` |
| Access.IndependentClinicPassesClinicArea | client/src/lib/access.ts:17-23 | an independent clinic is allowed on every path, billing included |
| Access.AgencyAdminLeavesClinicArea | client/src/lib/access.ts:17-22 | an agency admin is refused on every `/clinic` path, going to `/clinic` from billing and to `/` elsewhere |
| Access.OutsideClinicAreaAllowed | client/src/lib/access.ts:20-23 | any role is allowed on a path not starting with `/clinic` |
| Access.GuardExamples | client/src/__tests__/access.test.ts:5-35 | the outcomes the repository's unit tests expect |
| AppRoutes.Match | client/src/App.tsx:55-103 | a path matches a pattern up to ASCII letter case and with at most one trailing `/`; a path is protected iff it matches one of the three agency patterns, `/clinic/billing` or `/clinic`; any other path that matches no open pattern shows the not-found screen |
| AppRoutes.RequireRole | client/src/App.tsx:33-50 | while loading, only the loader and no navigation; once loaded, the child renders iff there is a profile with an allowed role; a redirect happens exactly when nothing is rendered |
| AppRoutes.AgencyRoutes | client/src/App.tsx:61-81 | every path matching `/agency`, `/agency/billing` or `/agency/settings` admits only `agency_admin` and redirects to `/auth/agency-login` |
| AppRoutes.ClinicBillingRoute | client/src/App.tsx:83-92 | every path matching `/clinic/billing` admits only `independent_clinic` and redirects to `/clinic` |
| AppRoutes.ClinicDashboardRoute | client/src/App.tsx:93-99 | every path matching `/clinic` admits both clinic roles and redirects to `/auth/clinic-login` |
| AppRoutes.LoadingShowsOnlyLoader | client/src/App.tsx:33-46 | on every protected path, a loading session shows only the loader and navigates nowhere |
| AppRoutes.LoadedProtectedPath | client/src/App.tsx:35-50 | on every protected path of a loaded session, an admitted role sees the screen without navigation; anyone else sees nothing and is sent to the route's redirect |
| AppRoutes.TableAgreesWithGuardsOnAdmission | client/src/App.tsx:61-99 | the table admits a session exactly when the matching guard function allows its role: on every agency path, and on the clinic paths spelled as in the table (with or without a trailing `/`) |
| AppRoutes.UpperCaseClinicPathEscapesGuard | client/src/App.tsx:93-99 | `/CLINIC` is protected by the clinic dashboard's wrapper, which shows an agency admin nothing, while the clinic guard allows that admin |
| AppRoutes.AgencyRedirectsAgree | client/src/App.tsx:61-81 | on the agency paths, the table's redirect equals the agency guard's redirect |
| AppRoutes.ClinicRedirectsDisagree | client/src/App.tsx:83-99 | the table and the clinic guard send an agency admin on `/clinic`, and a visitor with no profile on `/clinic/billing` (each with or without a trailing `/`), to different places |
| AuthContext.DeriveProfileFromUser | client/src/contexts/AuthContext.tsx:244-259 | no user gives no profile; the metadata's role string wins over the hint, even when it is empty; an empty or missing role string gives no profile; with no metadata role the hint's role is taken; the profile's role is named by that string, and id, email and tenant ids come from the user |
| AuthContext.EmptyMetadataRoleOverridesHint | client/src/contexts/AuthContext.tsx:246-249 | a stored empty role gives no profile despite a hint, while a missing role takes the hint |
| AuthContext.OfflineSignInProfile | client/src/contexts/AuthContext.tsx:119-124 | an offline sign-in takes the hinted role, or `independent_clinic` without a hint; the clinic id is `""` with a hint and fresh without one |
| AuthContext.SignUpProfile | client/src/contexts/AuthContext.tsx:178-186 | an accepted sign-up keeps the profile derived with the independent-clinic hint; when none is derived, an independent-clinic profile under the returned user's id, or a fresh id when no user came back, with the entered email and a fresh clinic id |
| AuthContext.SaveProfileEntries | client/src/contexts/AuthContext.tsx:86-93 | saving writes the profile key for a profile and removes it for `null`; every other key is untouched |
| AuthContext.SaveThenLoad | client/src/contexts/AuthContext.tsx:86-93 | reading storage back after a save gives the saved profile |
| AuthContext.SignInOutcome | client/src/contexts/AuthContext.tsx:95-127 | a sign-in ends not loading; a rejection only records the error; an acceptance clears the error, adopts the session and user and derives the profile with the hint; offline, the error is cleared and the fallback profile is kept, with session and user untouched |
| AuthContext.SignUpOutcome | client/src/contexts/AuthContext.tsx:152-201 | a sign-up ends not loading; a rejection only records the error; otherwise the error is cleared and the sign-up profile, or offline a fresh independent-clinic profile, is kept, with session and user untouched |
| AuthContext.HintedSignInProfile | client/src/contexts/AuthContext.tsx:112-125 | with a role hint, an offline sign-in leaves a profile with the hinted role; an accepted one returning a user leaves a profile iff the metadata names no role or a known one, and its role is the metadata's, or else the hint |
| AuthContext.AuthProvider.constructor | client/src/contexts/AuthContext.tsx:35-42 | the context starts signed out and not loading, with the profile read from storage |
| AuthContext.AuthProvider.SaveProfile | client/src/contexts/AuthContext.tsx:86-93 | sets the profile and mirrors it into storage; nothing else changes |
| AuthContext.AuthProvider.SignInWithEmail | client/src/contexts/AuthContext.tsx:95-127 | the new state is the sign-in outcome; storage changes only by saving the new profile, and not at all on a rejection; the mirror holds |
| AuthContext.AuthProvider.SignInManagedClinic | client/src/contexts/AuthContext.tsx:148-150 | is an email sign-in hinted as `managed_clinic` |
| AuthContext.AuthProvider.SignUpIndependentClinic | client/src/contexts/AuthContext.tsx:152-201 | the new state is the sign-up outcome; storage changes only by saving the new profile, and not at all on a rejection; the mirror holds |
| AuthContext.AuthProvider.SignOut | client/src/contexts/AuthContext.tsx:203-214 | whatever the provider answers, user, session and profile are cleared, loading ends, the provider's error is kept and the stored profile is removed |
| AuthContext.AuthProvider.OnAuthStateChange | client/src/contexts/AuthContext.tsx:67-79 | adopts the new session and its user, derives the profile without a hint, and mirrors it, removing the key when there is none |
| AuthContext.AuthProvider.LoadInitialSession | client/src/contexts/AuthContext.tsx:51-63 | adopts the existing session; a derivable profile replaces the current one and is stored, otherwise profile and storage are kept |
| AgencyContext.ReadSession | client/src/contexts/AgencyContext.tsx:23-34 | the initial agency id, token and agency are read from the keys `agencyId`, `token` and `agency`: a present key reads as its value, a missing key as `null` |
| AgencyContext.LoginEntries | client/src/contexts/AgencyContext.tsx:42-44 | login writes the agency id and token as text and the agency as JSON under their three keys, and leaves every other key as it was |
| AgencyContext.LogoutEntries | client/src/contexts/AgencyContext.tsx:54-56 | logout removes the three keys and leaves every other key as it was |
| AgencyContext.IsAuthenticated | client/src/contexts/AgencyContext.tsx:65 | holds iff the agency id and the token are both present and non-empty |
| AgencyContext.LoginSurvivesReload | client/src/contexts/AgencyContext.tsx:36-46 | reading storage after a login gives back exactly the logged-in session |
| AgencyContext.LogoutSurvivesReload | client/src/contexts/AgencyContext.tsx:49-57 | reading storage after a logout gives no session, which is not authenticated |
| AgencyContext.AgencyProvider.constructor | client/src/contexts/AgencyContext.tsx:23-34 | the session starts as the one read from storage |
| AgencyContext.AgencyProvider.Login | client/src/contexts/AgencyContext.tsx:36-47 | sets the three fields and writes the three keys; authenticated iff both id and token are non-empty; a reload reads back the session |
| AgencyContext.AgencyProvider.Logout | client/src/contexts/AgencyContext.tsx:49-57 | clears the three fields and removes the three keys; not authenticated; a reload reads back the cleared session |
| AgencyLoginPage.Landing | client/src/pages/auth/AgencyLogin.tsx:21-29 | no profile, no redirect; an agency admin goes to `/agency`, either clinic role to `/clinic` |
| AgencyLoginPage.LandingAdmitsRole | client/src/pages/auth/AgencyLogin.tsx:21-29 | every profile lands on a screen whose route admits its role |
| AgencyLoginPage.AgencyLogin.OnProfileChange | client/src/pages/auth/AgencyLogin.tsx:21-29 | does nothing without a profile; redirects to the landing path; sets the wrong-portal message exactly for clinic roles |
| AgencyLoginPage.AgencyLogin.HandleSubmit | client/src/pages/auth/AgencyLogin.tsx:31-36 | signs in with the `agency_admin` hint and ends not submitting |
| ClinicLoginPage.Landing | client/src/pages/auth/ClinicLogin.tsx:20-29 | no profile, no redirect; either clinic role goes to `/clinic`, an agency admin to `/agency` |
| ClinicLoginPage.LandingAdmitsRole | client/src/pages/auth/ClinicLogin.tsx:20-29 | every profile lands on a screen whose route admits its role |
| ClinicLoginPage.ClinicLogin.OnProfileChange | client/src/pages/auth/ClinicLogin.tsx:20-29 | does nothing without a profile; redirects to the landing path; sets the wrong-portal message exactly for an agency admin |
| ClinicLoginPage.ClinicLogin.HandleSubmit | client/src/pages/auth/ClinicLogin.tsx:31-36 | delegates to the managed-clinic sign-in and ends not submitting |
| ClinicSignupPage.Landing | client/src/pages/auth/ClinicSignup.tsx:20-26 | no profile, no redirect; an independent clinic goes to `/clinic/billing`, a managed clinic to `/clinic`, an agency admin to `/agency` |
| ClinicSignupPage.LandingAdmitsRole | client/src/pages/auth/ClinicSignup.tsx:20-26 | every profile lands on a screen whose route admits its role |
| ClinicSignupPage.ClinicSignup.OnProfileChange | client/src/pages/auth/ClinicSignup.tsx:20-26 | of the three independent checks at most one fires: the location becomes the landing path, or stays without a profile |
| ClinicSignupPage.ClinicSignup.HandleSubmit | client/src/pages/auth/ClinicSignup.tsx:28-33 | passes the name, email and password to the independent-clinic sign-up and ends not submitting |
| Datastore.FindClinic | server/_core/index.ts:72-76 | the clinic looked up by id is a row with that id, and is missing only when no row has it |
| Datastore.AppendFreshClinic | drizzle/schema.ts:40-41 | inserting a clinic whose primary key is new keeps the keys unique, and the lookup then finds that clinic |
| Server.ProvisionToken | server/_core/index.ts:49-50 | a token exists iff the header starts with `Bearer `, and it is the rest of the header |
| Server.CancelToken | server/_core/index.ts:114 | a token exists iff there is a header; the first `Bearer ` in it, wherever it occurs, is cut out and the rest joined; a header without `Bearer ` is taken whole |
| Server.TokenRulesDiffer | server/_core/index.ts:114 | a header without `Bearer ` is refused by provisioning but passed through whole by cancellation |
| Server.ManagedEmail | server/_core/index.ts:81 | the username if it holds `@`, otherwise the username at `managed.local`; the result always holds `@` |
| Server.ManagedEmailIdempotent | server/_core/index.ts:81 | synthesising the email of a synthesised email changes nothing |
| Server.ProvisionCheck | server/_core/index.ts:45-79 | 400 iff a field is missing or empty; 500 iff the fields are there and the server lacks its database configuration; 401 iff it has it and the bearer token resolves to no user; 403 iff the caller is not this agency's admin or the clinic is not this agency's; passes otherwise, with the caller's id |
| Server.ProvisionManagedClinic | server/_core/index.ts:37-106 | a rejected check writes nothing and answers its status; a user creation the provider refuses (a taken email or id, or its own rules) answers 500 and writes nothing; otherwise the user is created, one managed-clinic profile is added unless its id is taken, the other tables are kept, and 201 returns the profile and credentials |
| Server.CancelCheck | server/_core/index.ts:110-134 | 400 iff an owner field is missing; 500 iff the owner is given and the server lacks its database configuration; 401 iff it has it and the token resolves to no user; passes iff the caller has a profile whose role and tenant id match the owner type and id |
| Server.CancelRows | server/_core/index.ts:136-140 | exactly the row keyed by the owner type and id becomes `canceled`; every other row is unchanged and none is added |
| Server.CancelSubscription | server/_core/index.ts:108-148 | a rejected check writes nothing; otherwise the matching row is canceled, the other tables are kept, and the answer is 200 |
| Server.ForeignAgencyForbidden | server/_core/index.ts:63-70 | on a configured server, an agency admin naming another agency gets 403 from provisioning and from cancellation |
| Server.CancelPassMeansOwner | server/_core/index.ts:126-134 | a caller let through for a known owner type is that owner's agency admin or independent clinic |
| Server.ManagedClinicCannotCancel | server/_core/index.ts:126-131 | a managed clinic can never cancel for the owner type `agency` or `clinic` |
| Server.UnknownOwnerTypeCancelsNothing | server/_core/index.ts:110-140 | on a configured server, an unknown owner type passes every check for any profile, and the update changes no row |
| Server.EventStatus | server/_core/index.ts:163 | the status is `data.status`, else `event_type`, else `active` |
| Server.FirstPriceName | server/_core/index.ts:164 | present exactly when the event's items, their first element, its price and the price's name are all present; then it is that name |
| Server.EventPlan | server/_core/index.ts:164 | the plan is `data.plan`, else the first item's price name, else `usage_only` |
| Server.WebhookRows | server/_core/index.ts:155-176 | no owner, no change; otherwise only the owner's row changes, taking the event's status, plan, subscription id and period end over the existing row or the defaults; a value that is not in an enum column is refused |
| Server.WebhookIdempotent | server/_core/index.ts:167-176 | delivering the same event twice leaves the same table as delivering it once |
| Server.HandleBillingWebhook | server/_core/index.ts:150-183 | 500 with no change when the server lacks its database configuration; otherwise 202 with no change when the owner is missing, else 200 and the table after the upsert; nothing else changes |
| Server.FindAvailablePort | server/_core/index.ts:22-29 | returns the least port in `[start, start + 20)` the predicate accepts, or fails with the message when none does |
| SupabaseProfiles.LoadProfile | client/src/services/supabaseProfiles.ts:12-32 | `null` without a client or a row; a store error is passed on; otherwise the row's id, role and tenant ids |
| SupabaseProfiles.IndependentClinicRow | client/src/services/supabaseProfiles.ts:44-50 | the inserted clinic has no agency and is active |
| SupabaseProfiles.ManagedClinicRow | client/src/services/supabaseProfiles.ts:81-88 | the inserted clinic belongs to the agency and is active |
| SupabaseProfiles.ProvisionIndependentClinic | client/src/services/supabaseProfiles.ts:34-65 | fails without writing when unconfigured or when the clinic insert fails; otherwise the clinic is added, then the independent-clinic profile; a failing profile insert leaves the clinic in place |
| SupabaseProfiles.AuthorizationHeader | client/src/services/supabaseProfiles.ts:99 | a header is sent iff the access token is non-empty, and it carries the token after `Bearer ` |
| SupabaseProfiles.AuthorizationRoundTrip | client/src/services/supabaseProfiles.ts:99 | the server reads back exactly the token the browser sent, and a missing token as missing |
| SupabaseProfiles.ProvisionManagedClinicUser | client/src/services/supabaseProfiles.ts:67-115 | fails without writing when unconfigured or when the clinic insert fails; otherwise the clinic is added and stays, and sessions, calls and subscriptions are untouched; the result is a success iff the server accepts the request; on a refusal profiles and identity users are unchanged; on acceptance the identity user is created under the synthesised email, the managed-clinic profile is added unless its id is taken, and the result carries that profile and the clinic |
| SupabaseProfiles.RequestManagedUser | client/src/services/supabaseProfiles.ts:94-114 | the clinics, sessions, calls and subscriptions are untouched; the answer is a success iff the server accepts the request; a refusal is an error with profiles and identity users unchanged; an acceptance creates the identity user and adds the managed-clinic profile unless its id is taken, and returns that profile |
| SupabaseProfiles.OwnAgencyProvisionAccepted | client/src/services/supabaseProfiles.ts:78-111 | an agency admin with a valid token, provisioning a new user for its own new clinic, is accepted by a configured server when the identity provider's own rules accept the credentials |
| SupabaseProfiles.NoTokenRefused | client/src/services/supabaseProfiles.ts:99 | without an access token a configured server answers 401 |
| SupabaseProfiles.FetchAgencyClinics | client/src/services/supabaseProfiles.ts:117-126 | no client gives `[]`, a store error is passed on; otherwise the agency's clinics, newest first, as a permutation of the filtered rows |
| SupabaseProfiles.AgencyClinicsExact | client/src/services/supabaseProfiles.ts:117-126 | a clinic is listed iff it is in the table and belongs to the agency |
| SupabaseProfiles.FetchClinicCalls | client/src/services/supabaseProfiles.ts:128-137 | no client gives `[]`, a store error is passed on; otherwise the clinic's calls, newest first, as a permutation of the filtered rows |
| SupabaseProfiles.NewestCallFirst | client/src/services/supabaseProfiles.ts:128-137 | the first listed call is at least as recent as any call of the clinic |
| SupabaseProfiles.FetchSubscription | client/src/services/supabaseProfiles.ts:139-152 | the row for exactly this owner type and id, or `null` |
| ClinicSwitcher.DemoClinics | client/src/hooks/useClinicSwitcher.ts:14-18 | the switcher is seeded with three clinics |
| ClinicSwitcher.FindById | client/src/hooks/useClinicSwitcher.ts:25 | none iff no clinic has the id; otherwise the first clinic with it |
| ClinicSwitcher.InitialSelection | client/src/hooks/useClinicSwitcher.ts:20-22 | the first clinic, or none for an empty list |
| ClinicSwitcher.Switcher.constructor | client/src/hooks/useClinicSwitcher.ts:14-22 | starts on the initial selection, which is none or a listed clinic |
| ClinicSwitcher.Switcher.SwitchClinic | client/src/hooks/useClinicSwitcher.ts:24-29 | selects the clinic with the id when one exists and otherwise keeps the selection; the selection stays none or a listed clinic |
| ClinicSwitcher.DemoSelection | client/src/hooks/useClinicSwitcher.ts:14-28 | the seeded switcher starts on `clinic-1`; `clinic-2` selects the second clinic; an unknown id finds nothing |
| ClinicSwitcher.SwitchToListed | client/src/hooks/useClinicSwitcher.ts:24-28 | with distinct ids, switching to a listed clinic's id selects exactly that clinic |
| AgencyDashboardPage.DefaultClinics | client/src/pages/agency/AgencyDashboard.tsx:41-58 | the page starts with two clinics, each with a name and a username |
| AgencyDashboardPage.CollapseSpaces | client/src/pages/agency/AgencyDashboard.tsx:204 | replacing whitespace runs leaves no whitespace and never lengthens the text |
| AgencyDashboardPage.CollapseRun | client/src/pages/agency/AgencyDashboard.tsx:204 | a spaceless word followed by a whitespace run and the rest becomes the word, one `-`, and the collapsed rest |
| AgencyDashboardPage.SlugRun | client/src/pages/agency/AgencyDashboard.tsx:204 | the same for the username: the lower-cased word, one `-`, and the username of the rest |
| AgencyDashboardPage.SlugShape | client/src/pages/agency/AgencyDashboard.tsx:204 | a derived username has no whitespace and no upper-case ASCII letter, and is no longer than the name |
| AgencyDashboardPage.CollapseKeepsSpaceless | client/src/pages/agency/AgencyDashboard.tsx:204 | text without whitespace is not changed by the replacement |
| AgencyDashboardPage.SlugIdempotent | client/src/pages/agency/AgencyDashboard.tsx:204 | deriving a username from a derived username changes nothing |
| AgencyDashboardPage.AgencyDashboard.constructor | client/src/pages/agency/AgencyDashboard.tsx:72-82 | starts with the default clinics, an empty form with a generated password, no selection and both dialogs closed |
| AgencyDashboardPage.AgencyDashboard.TotalClinics | client/src/pages/agency/AgencyDashboard.tsx:131 | the shown figure is a numeral whose value is the number of clinics |
| AgencyDashboardPage.AgencyDashboard.EditName | client/src/pages/agency/AgencyDashboard.tsx:203-205 | sets the name and replaces the username with the name's slug; nothing else changes |
| AgencyDashboardPage.AgencyDashboard.AddClinic | client/src/pages/agency/AgencyDashboard.tsx:84-96 | with no name or username nothing changes; otherwise exactly one active clinic with the form's fields is appended and the modal closes; every listed clinic keeps a name and username |
| AgencyDashboardPage.AgencyDashboard.AskDelete | client/src/pages/agency/AgencyDashboard.tsx:292-294 | selects the row's clinic and opens the confirmation |
| AgencyDashboardPage.AgencyDashboard.DeleteClinic | client/src/pages/agency/AgencyDashboard.tsx:98-103 | with no selection nothing changes; otherwise the clinics with the selected id are filtered out in order, the selection is cleared and the dialog closes |
| AgencyDashboardPage.DeleteRemovesExactly | client/src/pages/agency/AgencyDashboard.tsx:100 | after a delete a clinic remains iff it was listed and has another id |
| ClinicDashboardPage.DayKeys | client/src/pages/clinic/ClinicDashboard.tsx:139-141 | one day key per call, in call order |
| ClinicDashboardPage.Distinct | client/src/pages/clinic/ClinicDashboard.tsx:138-144 | the map's keys: no key twice, and exactly the keys that occur |
| ClinicDashboardPage.Entries | client/src/pages/clinic/ClinicDashboard.tsx:144 | one entry per key, in order, with the key's number of occurrences |
| ClinicDashboardPage.VolumeData | client/src/pages/clinic/ClinicDashboard.tsx:136-145 | the loop over the calls and the listing of the map give the distinct day keys in first-appearance order, each with its count |
| ClinicDashboardPage.ListEntries | client/src/pages/clinic/ClinicDashboard.tsx:144 | listing the accumulator gives one entry per key in insertion order |
| ClinicDashboardPage.TallyStep | client/src/pages/clinic/ClinicDashboard.tsx:139-143 | counting one more call keeps the accumulator equal to the counts and first-appearance order of the calls seen |
| ClinicDashboardPage.VolumePerDay | client/src/pages/clinic/ClinicDashboard.tsx:136-145 | every day with a call is listed once with its number of calls, and no day is listed twice |
| ClinicDashboardPage.VolumeTotal | client/src/pages/clinic/ClinicDashboard.tsx:136-145 | the volume counts add up to the number of calls |
| ClinicDashboardPage.Appointments | client/src/pages/clinic/ClinicDashboard.tsx:149 | at least one appointment; otherwise a third of the calls rounded half up |
| ClinicDashboardPage.RoundThirdIsQuotient | client/src/pages/clinic/ClinicDashboard.tsx:149 | rounding a third of n equals the integer quotient of n + 1 by 3 |
| ClinicDashboardPage.AppointmentsData | client/src/pages/clinic/ClinicDashboard.tsx:147-150 | the same days as the volume data, each with max(1, (calls + 1) div 3) appointments |
| ClinicDashboardPage.DurationLabel | client/src/pages/clinic/ClinicDashboard.tsx:157 | `-` iff the duration is missing or zero; otherwise the numeral followed by `s` |
| ClinicDashboardPage.DurationLabelRoundTrip | client/src/pages/clinic/ClinicDashboard.tsx:157 | a positive duration's label reads back as that number of seconds |
| ClinicDashboardPage.StatusBanner | client/src/pages/clinic/ClinicDashboard.tsx:119-134 | the destructive "System paused" banner exactly when the system is paused, otherwise "System active" |

## Left out

- Rendering, styling, toasts, charts and dialogs are not modelled. A page is modelled only through
  its state fields and the navigation it triggers.
- Network and identity-provider calls are replaced by parameters or by the in-memory
  `Datastore.Store`. The identity provider's sign-in, sign-up and sign-out replies are the
  `Backend` parameter. An access token resolves through the store's session map.
- A transport or lookup error in the server handlers takes the same branch as a missing row. A
  thrown error in the browser service is an `Err` result.
- Fresh ids from `nanoid` and `crypto.randomUUID`, and the generated password, are parameters.
- JSON serialisation in local storage is not modelled. Storage maps each key to a typed value,
  and a value of the wrong shape reads as missing.
- The socket check `isPortAvailable` is a predicate parameter of `Server.FindAvailablePort`.
- Locale formatting of dates is not modelled. The volume chart's weekday key is a function
  parameter, and a row's display time is left out.
- The profile's `metadata` field is dropped.
- `signInWithGoogle` is not modelled, because the access logic does not depend on it.
- The effect that restores the profile from storage when it is `null`
  (client/src/contexts/AuthContext.tsx:44-49) is not a separate operation. The `Mirrored`
  invariant makes it a no-op.
- The status and settings updates of the clinic dashboard, and its clinic-settings load, are not
  modelled. They write one clinic row and do not depend on roles.
- Paddle signature validation and the upstream cancellation call do not exist in the source, so
  neither is modelled.
- Concurrency is not modelled: the ordering of asynchronous effects and auth callbacks, and
  out-of-order webhook delivery.
- The subscriptions table is keyed by the (owner type, owner id) pair. The schema's own primary
  key is a separate `id`, and the upsert passes no conflict target; the model treats the upsert
  as keyed by the owner.
- Server.WebhookRows: the table refuses a status or owner type outside its enum, and the handler
  still answers 200. The model keeps the table unchanged in that case.
- AuthContext.DeriveProfileFromUser: a non-empty metadata role outside the three roles yields no
  profile here, while the source builds a profile carrying that string; a profile's role is one
  of the three roles throughout the model. AuthContext.SignUpProfile then keeps its fallback
  profile for such a user.
- The server's environment (the database URL and its two keys) is the `configured` parameter of
  the handlers; without it creating a database client throws and the handler answers 500.
- Server.CreateUserRefused: the identity provider's own validation of the email and password is
  the `policyRefuses` parameter; only a taken email or id is modelled from the user table.
- Server.ProvisionManagedClinic: a profile insert that collides with an existing id is silently
  dropped, and the reply carries a `null` profile, as the source ignores that insert's error.
  Foreign-key checks on the inserted rows are not modelled.
- SupabaseProfiles.FetchAgencyClinics, SupabaseProfiles.FetchClinicCalls: rows with equal
  timestamps may come back in any order. The contract states only "sorted, newest first, and a
  permutation of the matching rows".
- AppRoutes.Match: letter case is folded on the ASCII letters only, and a path is compared whole:
  the router's query strings, hash and percent-decoding are not modelled.
- AgencyDashboardPage.Slug: `toLowerCase` is modelled on the ASCII letters only. The whitespace
  class is JavaScript's `\s` set.
- ClinicDashboardPage.Appointments: `Math.round` is modelled on exact rationals. For non-negative
  call counts the floating-point rounding of `n / 3` gives the same result.
- Query filters compare strings exactly. Database collation is not modelled.
