# Warden, internal tokens and service discovery, verified

A Dafny model of the identity service of saker-common, its internal tokens and its discovery
encoders, with proofs of what they promise over every input and every run.

`dafny verify dfyconfig.toml` checks all of it.

## What is modelled

* **Warden's identity state** (`Iam`, `MemoryStores`, `Services`): tenants, principals, sessions, API
  keys, device codes, service accounts, agent runs, audits and the live policies. Every service call
  is a function from state to state and result; the classes `Service` and `MemoryStore` change their
  fields in place and are proved to do what those functions say. A call is atomic.
* **What each call does** (`Access`, `Tokens`): who may, on which records, what changes and what does not,
  and whom a token names, said of the stored records alone.
* **Runs** (`Identity`, `Runs`, `Histories`, `Owners`, `Keys`, `Devices`): any sequence of calls with any
  arguments, the states it leads through and what each call did. The discipline of statuses, tenants'
  standing, session and token lifetimes, the origin of every key and of every device grant are theorems
  about all of them. Sessions stay bound to their users exactly as long as no two reported (tenant,
  subject) pairs of different tenants share an identifier; `CleanSeparate` and `PartsCollide` say which
  pairs can. `Serving` proves that calls on the service object are such runs, and `Directories` that a
  reconciliation is a stretch of one.
* **Reconciliation** (`Casdoor`, `Walks`, `Outcomes`, `Reconcile`, `CasdoorSources`): the loop over a Go
  map is a walk in any order. `Walks` has two induction principles over its steps; from them `Outcomes`
  proves, for any identifiers, when it succeeds, what it keeps, that it converges, and which other
  records it changes. `Reconcile` gives the whole result as a plan collected along the walk, and so
  exactly when the order does not matter; then a second reconciliation changes nothing.
* **Policy evaluation** (`Policies`) and **monthly key rotation** (`Calendar`, `InternalJwt`): a proleptic
  Gregorian calendar in nanoseconds, whole-second claims, and the previous-period window.
* **Encoders** (`Mdns`, `Resp`, on `Bytes` and `Decimal`): each with a decoder written from the standards
  (RFC 1035, RFC 2782, section 6 of RFC 6763; the RESP array of bulk strings).
* **Concurrent protocols** (`OidcGate`, `OidcLogin`, `Registrations`) as machines whose steps interleave
  freely, and **template substitution** (`Templates`) in any order of the keys.

SHA-256, HMAC, base64url and JSON are parameters. Where a theorem needs them to be ideal
(collision-free, invertible, no dot in base64url) it says so in a premise: `IdealDigest`, `Ideal`.
Random strings, clocks, the directory's answers, the factory's answers and the choices of a map walk
are arguments, so the theorems hold for all of them.

### Where a property has a condition

* `AnnouncementDecodes`: an announcement with an empty label, a name over 255 octets or a port outside
  16 bits does not decode to what was meant; the condition is exact.
* `RotationComplete` needs ttl plus skew of at most 28 days, which `RotationTight` shows to be tight;
  `AcceptedExactly` gives the outcome without that bound and `RotationTooLate` what is refused then.
* `SessionsBoundExactly`: the mapping check accepts tenants such as "t" and " t", whose principals share
  identifiers; with them a run can leave a session in one tenant and its user in the other
  (`CollisionUnbinds`).
* `OwnersExactly`: a session stays with its external user as long as no two reported pairs of different
  subjects share an identifier; `ClientRenames` shows why client requests are left out there.
* `OutsideExactly`, `StrayTaken`: a reconciliation takes over a record of a tenant that is not mapped, if
  its identifier is that of a report.
* `OrderExactly`: if an identifier is reported for two known subjects, the last one visited keeps the
  record; `CleanApart` and `ApartUnshared` say for which identifiers that cannot be.
* `SettledLifetimes`: an internal lifetime of one nanosecond leaves agents a longer one, unless they too
  are set to one nanosecond.
* `PlaceholderValueOrders`: a value that is another key's placeholder makes the substitution order visible.
* `NewPolicyDeterministic`: two names of one role with different scopes, and only those, make the built
  policy depend on the map order.
* Disabling a service account leaves its sessions in place, and a client-credentials request stores its
  principal as active again. The theorems about statuses and sessions are therefore about users.

## Model

| member | source | states |
|---|---|---|
| `Text.SortedKeys` | warden/policy.go:355-362 | whatever order the map is walked in, the result is the one strictly sorted list of the keys |
| `Text.SortedUnique` | warden/policy.go:355-362 | a strictly sorted list is determined by its elements, so sorting forgets the order of the walk |
| `Text.TrimExactly` | warden/policy.go:131-145 | trimming takes white space off both ends, and all of it |
| `Text.SplitExactly` | internaljwt/verifier.go:104-116 | splitting cuts at every separator and loses nothing |
| `Decimal.ParsePrint` | discovery/redis.go:139-149 | reading a printed number gives the number back, leading zeros included |
| `Policies.NewPolicy` | warden/policy.go:103-124 | fails exactly when some role name is unknown; otherwise builds what some order of the names builds |
| `Policies.NewPolicyDeterministic` | warden/policy.go:103-124 | the built policy is independent of the map order if and only if names of one role list the same scopes |
| `Policies.DisagreedPolicies` | warden/policy.go:107-122 | two names of one role with different scopes: two orders that build different policies |
| `Policies.BuiltTrimmed` | warden/policy.go:103-124 | a built policy holds trimmed scopes only, each role those of one of its names |
| `Policies.EvalScopesForRoles` | warden/policy.go:147-159 | the loop over roles and scopes yields the strictly sorted union over the normalized roles |
| `Policies.EvalSliceSet` | warden/policy.go:344-353 | the set of the trimmed, non-blank values |
| `Policies.EvalRecognized` | warden/policy.go:161-170 | the union of the scopes of all requested actions |
| `Policies.EvalScopesForActions` | warden/policy.go:161-181 | the loops compute the sorted intersection of the granted scopes with the request, or with the audience default when nothing is recognized |
| `Policies.EvalIntersectScopes` | warden/policy.go:333-342 | the sorted common values of the trimmed left list and the right list |
| `Policies.RolesMonotone` | warden/policy.go:147-159 | more roles never mean fewer scopes |
| `Policies.RolesMatterAsSet` | warden/policy.go:147-159 | order and repetition of roles do not matter |
| `Policies.ScopesForActionsExact` | warden/policy.go:161-181 | a scope is evaluated if and only if the roles grant it and the request asks for it, with the default for an unrecognized request |
| `Policies.AudienceConfined` | warden/policy.go:203-315 | every scope evaluated for audience A begins with `A:` |
| `Policies.IntersectIsCommon` | warden/policy.go:333-342 | membership in the intersection, both directions |
| `Policies.VerbExactly` | warden/policy.go:203-315 | which action asks for which verb of which audience |
| `Policies.DefaultsExactly` | internaljwt/permissions.go:81-108 | the default verbs of each audience |
| `Policies.RequestedExactly` | warden/policy.go:161-181 | a request asks for the verbs its actions name, or for the defaults if they name none |
| `Policies.RoleNames` | warden/policy.go:131-145 | which names are roles, and which role each stands for |
| `Calendar.KnownDates` | internaljwt/secret.go:32-37 | the day count agrees with known dates of the Gregorian calendar |
| `Calendar.MonthLength` | internaljwt/secret.go:45-52 | every month has 28 to 31 days, with leap years |
| `Calendar.MonthUnique` | internaljwt/secret.go:32-37 | the month of an instant is the one whose bounds contain it |
| `Calendar.PreviousMonth` | internaljwt/secret.go:39-43 | one nanosecond before a month start lies in the preceding month, January included |
| `Calendar.PeriodInjective` | internaljwt/secret.go:32-37 | different months print different periods |
| `Calendar.PeriodReads` | internaljwt/secret.go:32-37 | a period reads as its four-digit year, a dash and its two-digit month |
| `Calendar.KnownInstants` | internaljwt/secret.go:45-52 | the epoch and the zero instant start their months, and a day has 86400 seconds |
| `InternalJwt.EvalCleanStrings` | internaljwt/signer.go:126-135 | the trimmed, non-empty values in their order |
| `InternalJwt.SettingsExactly` | internaljwt/verifier.go:35-70 | which settings a signer and a verifier accept, and their defaults |
| `InternalJwt.PartsOfToken` | internaljwt/signer.go:99-116 | a signed token splits into exactly its header, claims and signature |
| `InternalJwt.KeyOfMonth` | internaljwt/secret.go:32-43 | a tag made with one month's key verifies under another month's key if and only if the months are the same |
| `InternalJwt.VerifyMonthToken` | internaljwt/verifier.go:104-142 | the exact outcome of verifying a token made with a given month's key, errors included |
| `InternalJwt.VerifyExactly` | internaljwt/verifier.go:104-186 | exactly which tokens are accepted, whoever made them: HS256, a signature in time over header and claims, and claims for this verifier, complete and in time |
| `InternalJwt.RotationHorizon` | internaljwt/verifier.go:117-130 | whatever expiry is claimed, an accepted token's key month is the current one, or the previous one within ttl plus skew of the month start |
| `InternalJwt.SignedClaims` | internaljwt/signer.go:36-97 | what every successful signing puts into claims and token |
| `InternalJwt.SignedFields` | internaljwt/signer.go:36-97 | every claim of a successful signing, from its input |
| `InternalJwt.ClaimsErrorLater` | internaljwt/verifier.go:155-186 | from the signing instant on, well-formed claims are refused only for expiry, after the skew |
| `InternalJwt.AcceptedExactly` | internaljwt/verifier.go:104-186 | with no bound on lifetimes: accepted if and only if not expired and the key month is still tried |
| `InternalJwt.RotationComplete` | internaljwt/verifier.go:104-186 | with ttl plus skew at most 28 days and a lifetime within the ttl, rotation never rejects: accepted exactly until expiry plus skew, across month and year ends |
| `InternalJwt.RotationInTime` | internaljwt/secret.go:45-52 | two instants at most 28 days apart share a month or the later one is inside the previous-period window |
| `InternalJwt.RotationTooLate` | internaljwt/verifier.go:117-130 | with the key month out of reach the token is refused for its signature, expired or not |
| `InternalJwt.RotationTight` | internaljwt/verifier.go:117-130 | 28 days is tight: with a nanosecond more, some signed, unexpired token is refused for its signature |
| `InternalJwt.TightMonths` | internaljwt/secret.go:45-52 | one nanosecond over 28 days, the key month can be two behind |
| `InternalJwt.SecretOfAccepted` | internaljwt/verifier.go:104-142 | only a verifier with the signer's master secret accepts |
| `InternalJwt.ConfiguredRotation` | internaljwt/verifier.go:35-70 | for a signer and a verifier as configured, with a lifetime that fits, accepted if and only if issuer and audience are the verifier's and expiry plus skew has not passed |
| `Identity.EncodeExactly` | warden/directory.go:218-226 | the encodings of NUL-free parts, however many, agree exactly when the parts' trims do |
| `Identity.PrincipalIDExactly` | warden/directory.go:218-226 | two NUL-free (tenant, subject) pairs share a principal identifier exactly when their trims agree |
| `Identity.PartsCollide` | warden/directory.go:220-223 | two different tenants with one identifier because of a space, and two different pairs with one because of a NUL |
| `Identity.SyncBindsExactly` | warden/directory.go:13-87 | a sync keeps sessions bound if and only if the record under the projected id, when in another tenant, has no session or becomes disabled |
| `Identity.CleanSeparate` | warden/directory.go:218-226 | trimmed, NUL-free pairs never share an identifier across tenants |
| `Identity.PrefixesDisjoint` | warden/directory.go:36-37 | user, service-account and agent identifiers can never coincide |
| `Identity.SyncSnapshotOk` | warden/directory.go:13-87 | for every snapshot: records stay under their own ids, statuses only decline, tenants keep their standing; sessions stay bound when the pair is among separate ones |
| `Identity.SyncDirectoryUserOk` | warden/directory.go:89-111 | the same for all snapshots of a subject, also when one of them fails midway |
| `Identity.RevokedOk` | warden/directory.go:126-135 | disabling a principal and ending its sessions keeps shape, standing and bound sessions |
| `Identity.RefreshOk` | warden/directory.go:113-124 | a refresh keeps them too and returns a record of the same identifier |
| `Identity.ValidateOk` | warden/service.go:515-552 | a successful validation returns the stored, unexpired session and the principal it names, neither disabled nor pending; it keeps shape, standing and, among separate pairs, bound sessions |
| `Access.LifetimesExactly` | warden/service.go:60-120 | the lifetimes that are settled on, setting by setting |
| `Access.SignInExactly` | warden/service.go:482-513 | who gets a session, which, and every refusal |
| `Access.ValidateExactly` | warden/service.go:515-552 | a session is accepted exactly if it is stored, unexpired, in an open tenant, and its stored principal is in that tenant and usable; the directory, if consulted, has the last word |
| `Access.RefreshExactly` | warden/directory.go:113-124 | a refresh returns what was stored of the record, or disables it and signs it out |
| `Access.ReportExactly` | warden/directory.go:89-111 | reports about anyone but the subject are refused as a whole; others are stored in order |
| `Access.SyncExactly` | warden/directory.go:13-87 | every field of the synced record, its status, the tenant, and all that stays |
| `Access.SyncedRoles` | warden/directory.go:155-170 | the known reported roles, once each, or the frontend user's |
| `Access.TeamsExactly` | warden/directory.go:192-209 | one active team per identified group, under its own names and parent |
| `Access.SyncRecorded` | warden/directory.go:75-87 | one denial per reported name that is no role, then the sync |
| `Access.SwitchExactly` | warden/service.go:602-640 | a session moves exactly to a record of the same external user in the target tenant, not disabled, with an allowed team; every refusal |
| `Access.TeamSwitchExactly` | warden/service.go:642-655 | the team of the session changes and nothing else, or the refusal |
| `Access.AdministerExactly` | warden/principal_admin.go:12-138 | who may, on which records, the new status, whose sessions end, and that nothing else changes |
| `Access.UseKeyExactly` | warden/service.go:983-1004 | a key is accepted exactly if it is stored, active, unexpired, and its holder not disabled; only a last use is recorded |
| `Access.RevokeExactly` | warden/service.go:942-958 | revoking succeeds exactly if the caller has a key with that identifier, and revokes it |
| `Access.MakeKeyExactly` | warden/service.go:802-832 | a key is made exactly with scopes the caller's roles carry; all its fields |
| `Access.MakeAccountExactly` | warden/service.go:834-878 | an account is made exactly by an administrator, with a name and carried scopes; account, principal and key |
| `Access.DropAccountExactly` | warden/service.go:921-940 | an account is disabled exactly by an administrator of its tenant |
| `Access.StartExactly` | warden/service.go:301-318 | a pending code with a life of fifteen minutes |
| `Access.ApproveExactly` | warden/service.go:320-347 | exactly a pending, unexpired code is approved, for the caller |
| `Access.ExchangeExactly` | warden/service.go:349-391 | exactly an approved, unexpired code of a usable principal yields a key, of that principal, for thirty days, and is consumed |
| `Tokens.SessionTokenNames` | warden/service.go:697-714 | the token names the validated principal, in the session's tenant, with its roles, and has no actor |
| `Tokens.KeyTokenNames` | warden/service.go:780-800 | the token names the key's holder, in the key's tenant, and has no actor |
| `Tokens.ClientTokenNames` | warden/service.go:716-778 | the token names the projected service account, in the client's tenant, and has no actor |
| `Tokens.AgentTokenNames` | warden/service.go:1048-1084 | the token names the agent of the run in the caller's session, and the caller as actor and as whom it stands for |
| `Tokens.IssueExactly` | warden/service.go:1086-1100 | a signed token is recorded against its principal; a refusal to sign changes nothing |
| `Tokens.DelegationStored` | warden/service.go:1048-1084 | the agent and the run that a delegation stores |
| `Tokens.ClientRefused` | warden/service.go:716-778 | which clients are refused without effect |
| `Tokens.ClientSettled` | warden/service.go:745-767 | the tenant, principal and account that a client request stores |
| `Tokens.SessionGrantExactly` | warden/service.go:697-714 | exactly the scopes that the roles carry and the request asks for are granted |
| `Tokens.KeyGrantExactly` | warden/service.go:780-800 | exactly those of the key's scopes |
| `Tokens.ClientGrantExactly` | warden/service.go:768-778 | exactly those of the client token's scopes |
| `Tokens.AgentGrantExactly` | warden/service.go:1048-1084 | exactly what is due to the caller, or what of it the caller lists |
| `Services.ProjectionID` | warden/directory.go:218-226 | feeding the hash part by part equals hashing the whole encoding |
| `Services.EvalDirectoryRoles` | warden/directory.go:155-170 | first occurrences of known roles, or the fallback role |
| `Services.EvalUnknownRoles` | warden/directory.go:172-190 | first occurrences of the trimmed names that are no role |
| `Services.EvalDirectoryTeams` | warden/directory.go:192-209 | one active team for every group with an identifier, in order |
| `Services.EvalRoleKeys` | warden/service.go:1120-1128 | the canonical keys of the role grants |
| `Services.Service.StoreTenant` | warden/directory.go:20-35 | refuses to move a tenant to another organization and never re-enables a disabled one |
| `Services.Service.SettleStatus` | warden/directory.go:61-74 | the status a projected record is stored with |
| `Services.Service.SyncDirectorySnapshot` | warden/directory.go:13-87 | the whole new state and the result of one sync |
| `Services.Service.SyncDirectoryUser` | warden/directory.go:89-111 | the new state after all snapshots, stopping at the first failure |
| `Services.Service.RevokeDirectoryPrincipal` | warden/directory.go:126-135 | record disabled, its sessions gone, one audit, always an error |
| `Services.Service.RefreshDirectoryPrincipal` | warden/directory.go:113-124 | the refreshed record, or revocation when the directory no longer reports it |
| `Services.Service.CreateSession` | warden/service.go:482-513 | which principals get a session and what is stored |
| `Services.Service.ValidateSession` | warden/service.go:515-552 | every outcome of a validation, and the expired session's removal |
| `Services.Service.SwitchTenant` | warden/service.go:602-640 | the new session context; a target is found whenever there is one |
| `Services.Service.SwitchTeam` | warden/service.go:642-655 | the new team of the session, or the refusal |
| `Services.Service.SelectTeam` | warden/service.go:684-695 | a team is accepted if and only if the principal has it, enabled, in its tenant |
| `Services.Service.Administer` | warden/principal_admin.go:12-138 | the four administrator operations: who may, which states they apply to, and what changes |
| `Services.Service.CreateAPIKey` | warden/service.go:802-832 | a key is stored only with scopes its creator holds |
| `Services.Service.CreateServiceAccountToken` | warden/service.go:834-878 | account, principal and key are stored together, or nothing is |
| `Services.Service.DisableServiceAccount` | warden/service.go:921-940 | account and principal of the caller's own tenant are disabled |
| `Services.Service.RevokeAPIKey` | warden/service.go:942-958 | revokes one of the caller's keys with that id, if there is any |
| `Services.Service.ValidateAPIKey` | warden/service.go:983-1004 | active, unexpired and with a usable principal; the last use is recorded |
| `Services.Service.SignForSession` | warden/service.go:697-714 | state and token of a session's request |
| `Services.Service.SignForAPIKey` | warden/service.go:780-800 | state and token of a key's request |
| `Services.Service.SignForClient` | warden/service.go:716-778 | state and token of a client-credentials request, tenant and principal created on the way |
| `Services.Service.DelegateAgent` | warden/service.go:1048-1084 | the agent principal, the run record and the delegated token |
| `Services.Service.StartDeviceAuth` | warden/service.go:301-318 | a pending code with a fifteen-minute life |
| `Services.Service.ApproveDeviceAuth` | warden/service.go:320-347 | the user code is trimmed and upper-cased; only a pending, unexpired code is approved; a code is found whenever there is one |
| `Services.Service.ExchangeDeviceToken` | warden/service.go:349-391 | only an approved, unexpired code yields a key, and it is consumed |
| `Serving.Serve` | warden/service.go:175-1084 | one call on the service object is one call of the model, up to the choices of map walks |
| `Serving.ServeAll` | warden/service.go:175-1084 | any sequence of calls on the object is a run of the model |
| `MemoryStores.MemoryStore.UpdatePrincipalStatus` | warden/memory_store.go:47-57 | changes one record's status or nothing |
| `MemoryStores.MemoryStore.ListPrincipalsByCasdoorUser` | warden/memory_store.go:79-89 | exactly the records of an external user, in any order |
| `MemoryStores.MemoryStore.ListDirectorySubjects` | warden/memory_store.go:125-144 | the sorted distinct external subjects of a tenant's users |
| `MemoryStores.MemoryStore.UpdateSessionContext` | warden/memory_store.go:201-213 | moves a session without touching its times |
| `MemoryStores.MemoryStore.DeleteSessionsByPrincipal` | warden/memory_store.go:222-231 | removes exactly the sessions of a principal |
| `MemoryStores.MemoryStore.DisableServiceAccount` | warden/memory_store.go:253-267 | disables account and principal, tenant checked on both |
| `MemoryStores.MemoryStore.RevokeAPIKey` | warden/memory_store.go:298-309 | revokes one matching key, or there is none |
| `MemoryStores.MemoryStore.TouchAPIKeyLastUsed` | warden/memory_store.go:311-322 | records the use on one key with that id, or there is none |
| `MemoryStores.MemoryStore.GetDeviceCodeByUserCode` | warden/memory_store.go:163-172 | a code with that user code, or there is none |
| `MemoryStores.MemoryStore.UpdateDeviceCode` | warden/memory_store.go:174-182 | replaces a stored code or changes nothing |
| `Runs.LoginWithin` | warden/service.go:482-513 | a sign-in opens one session, bound to its user, and changes nothing else |
| `Runs.MoveTenantWithin` | warden/service.go:602-640 | a tenant switch keeps the session's times, every status and, among separate pairs, bound sessions |
| `Runs.MoveTeamWithin` | warden/service.go:642-655 | the same for a team switch |
| `Runs.AdministerWithin` | warden/principal_admin.go:12-138 | only a successful enabling, or approving of a pending principal, makes anyone active |
| `Runs.GrantClientWithin` | warden/service.go:716-778 | a client-credentials request touches no user and no tenant's standing |
| `Runs.GrantAgentWithin` | warden/service.go:1048-1084 | a delegation touches no user |
| `Runs.ExchangeFound` | warden/service.go:349-391 | every outcome of a device exchange on a well-shaped store |
| `Runs.CallWithin` | warden/service.go:175-1084 | whatever the call and its arguments, it changes tenants, statuses, session times, keys, device codes and policies no more than its effect says, and keeps sessions bound among separate pairs |
| `Histories.StepAt` | warden/memory_store.go:10-31 | every step of every run does so, and every state reached is well shaped |
| `Histories.SessionsBoundExactly` | warden/service.go:482-655 | in all runs over a set of non-blank pairs a user's session is in the user's tenant and the user not disabled, if and only if no two of the pairs, of different tenants, share an identifier |
| `Histories.CollisionUnbinds` | warden/directory.go:36-37 | for any two colliding pairs, three calls after which a session and its user are in different tenants |
| `Histories.SessionsAlwaysBound` | warden/service.go:482-655 | the invariant behind it, in every reachable state |
| `Histories.DisabledUntilEnabled` | warden/principal_admin.go:45-65 | over any run a disabled user stays disabled until a successful call of an administrator takes it from disabled to active |
| `Histories.PendingUntilGranted` | warden/principal_admin.go:67-100 | over any run a user becomes active only in a successful call that enables it, or approves it while pending |
| `Histories.ActiveHasOrigin` | warden/directory.go:61-74 | every active user was active at the start, or some call first projected it while registration was open, or some successful call made it active |
| `Histories.TenantsKeepStanding` | warden/directory.go:21-35 | over any run a disabled tenant stays disabled and a non-empty organization never changes |
| `Histories.SessionLifetime` | warden/service.go:501-511 | through any sequence of calls a session expires exactly one session lifetime after its sign-in |
| `Access.SettledLifetimes` | warden/service.go:65-95 | the lifetimes `NewService` settles on are positive, and exactly when agents' stay within the internal one |
| `Histories.IssuedClaims` | warden/service.go:1086-1098 | expiry, scopes, audience and key month of any issued token |
| `Histories.IssuedFromSession` | warden/service.go:697-714 | a token issued to a session: the session is stored and unexpired, and the token lives one lifetime |
| `Histories.SessionBoundsTokens` | warden/service.go:697-714 | end to end, over any run: no token signed or delegated from a session verifies after sign-in plus session lifetime, token lifetime and skew |
| `Histories.ConfiguredBound` | warden/service.go:697-714 | for a service as configured the bound is by the internal lifetime, under the exact condition on the settings |
| `Owners.NoUseUntilEnabled` | warden/principal_admin.go:12-38 | over any run no session of a disabled user validates until a successful call enables it |
| `Owners.DisablingCall` | warden/principal_admin.go:12-38 | a successful disabling or rejection leaves the record disabled and signed out |
| `Owners.ClosedTenant` | warden/service.go:525-528 | over any run, once a tenant is disabled no session in it validates again |
| `Owners.NoTokenUnvalidated` | warden/service.go:697-714 | nothing is issued from a session that does not validate |
| `Owners.RevokingCall` | warden/service.go:942-958 | a successful revocation leaves the key revoked |
| `Owners.RevokedForGood` | warden/service.go:942-958 | over any run a revoked key stays revoked until a call makes one under its hash again |
| `Owners.RevokedNeverUsed` | warden/service.go:983-1004 | until then no token of that hash is accepted and none is signed with it |
| `Owners.OwnerKept` | warden/service.go:602-640 | over any run a session stays with the external user it was opened for, through switches and syncs, if admitted pairs that share an identifier are about one subject |
| `Owners.OwnersExactly` | warden/service.go:602-640 | and, over all runs without client requests, only then |
| `Owners.ClientRenames` | warden/service.go:745-767 | two clients whose subjects differ by a space: a session of the account ends up with the other |
| `Histories.CollisionRun` | warden/directory.go:36-60 | two pairs that share an identifier: after three calls a session's record is the other pair's |
| `Keys.NewKeyStored` | warden/service.go:802-878 | a call that makes a key stores it, within its creator's scopes, for the creator or for the account it creates in the creator's name |
| `Keys.KeyOrigin` | warden/service.go:376-384 | every stored key goes back to the very call that made and stored it, within its creator's scopes then; since then only status and last use have changed |
| `Keys.PrivilegeNeverGrows` | warden/service.go:780-800 | over any run with policy and role changes, a key's token carries only scopes that the key's own creator held when the call stored it, its principal holds now, and the request asks for |
| `Keys.DelegateClaims` | warden/service.go:1048-1084 | a delegated token carries only scopes the acting user holds now, and only listed ones if any are listed |
| `Keys.ClaimsWithinEvaluated` | warden/service.go:697-800 | no token claims a scope that was not evaluated for the acting principal and the request |
| `Keys.TokensAudienceConfined` | internaljwt/permissions.go:81-108 | every scope in a token requested for audience A begins with `A:` |
| `Devices.CodeStep` | warden/service.go:301-391 | how one call may change a device code |
| `Devices.Exchanged` | warden/service.go:349-391 | what an exchange finds and leaves |
| `Devices.StatusForward` | warden/service.go:320-391 | over any run a code moves only pending, approved, consumed, with a fixed expiry |
| `Devices.OneKeyPerCode` | warden/service.go:349-391 | a code yields at most one key, never at or after its expiry |
| `Devices.ApprovedEarlier` | warden/service.go:320-347 | a code past pending was approved earlier by a validated session of the principal it records |
| `Devices.KeyOfApprover` | warden/service.go:376-384 | the key belongs to the principal whose validated session approved the code |
| `Casdoor.CollectYields` | warden/casdoor_directory.go:120-165 | the reported snapshots are exactly those some mapping yields |
| `Casdoor.CollectDistinct` | warden/casdoor_directory.go:120-165 | no two reported snapshots are about one tenant |
| `Casdoor.ReportedExactly` | warden/casdoor_directory.go:120-165 | a subject is reported to a mapped tenant exactly if it is found in the organization with every required group |
| `Casdoor.SyncUserExactly` | warden/casdoor_directory.go:120-136 | a subject can be synced exactly if the directory answers, with the subject itself, for every organization |
| `Casdoor.SnapshotContent` | warden/casdoor_directory.go:159-162 | the reported tenant and user, field by field |
| `Casdoor.RolesReported` | warden/casdoor_directory.go:145-150 | a role is mapped exactly from an enabled role of the organization |
| `Casdoor.GroupsReported` | warden/casdoor_directory.go:151-156 | a group is reported exactly if it is the user's and of the organization, under its own name |
| `Casdoor.MappingExactly` | warden/casdoor_directory.go:57-91 | which mappings are accepted, part by part |
| `Casdoor.AcceptedBelongs` | warden/casdoor_directory.go:72-84 | in an accepted mapping every role key and group belongs to its organization and to no other |
| `Casdoor.AcceptedAreGood` | warden/casdoor_directory.go:57-93 | what is accepted maps distinct, named tenants |
| `Casdoor.KnownExactly` | warden/casdoor_directory.go:232-250 | which subjects are known |
| `Casdoor.ProjectedRolesJustified` | warden/casdoor_directory.go:145-150 | every projected role is the fallback, a default of the mapping, or mapped from an enabled role of the mapping's own organization |
| `CasdoorSources.CheckMapping` | warden/casdoor_directory.go:57-91 | a mapping is accepted if and only if it is well formed, and then its names are filled in |
| `CasdoorSources.CheckMappings` | warden/casdoor_directory.go:52-93 | accepted if and only if non-empty, all well formed, and no tenant mapped twice |
| `CasdoorSources.EvalSnapshot` | warden/casdoor_directory.go:145-162 | the loops over roles and groups build the snapshot of a user under a mapping |
| `CasdoorSources.CasdoorDirectorySource.SyncUser` | warden/casdoor_directory.go:120-165 | remembering one answer per organization changes nothing in the result |
| `CasdoorSources.CasdoorDirectorySource.Bind` | warden/casdoor_directory.go:206-217 | a source serves one service |
| `CasdoorSources.CasdoorDirectorySource.ListKnown` | warden/casdoor_directory.go:232-250 | the known subjects are the external users of the mapped tenants, with all records stored for each |
| `CasdoorSources.CasdoorDirectorySource.RevokeLost` | warden/casdoor_directory.go:259-268 | revokes the prior records of mapped tenants that are no longer reported, in their order, up to a failure |
| `CasdoorSources.CasdoorDirectorySource.VisitAll` | warden/casdoor_directory.go:251-271 | the loop is a walk over the known subjects in some order, each once, up to a failure |
| `CasdoorSources.CasdoorDirectorySource.Reconcile` | warden/casdoor_directory.go:221-271 | the walk it took and where it ended; from any shaped store, with any accepted mappings: succeeds if and only if nothing stands in the way, keeps shape and standing and raises no status even when it fails, and on success leaves every covered record settled and changes another exactly if its identifier is reported |
| `Walks.WalkKeeps` | warden/casdoor_directory.go:251-271 | whatever each sync and each revocation keeps, a whole reconciliation keeps, in any order, finished or not |
| `Walks.WalkReaches` | warden/casdoor_directory.go:251-271 | what every visit to a subject establishes, and each step keeps, holds after a success |
| `Outcomes.WalkKept` | warden/casdoor_directory.go:251-271 | for any identifiers: records stay under their own ids, tenants keep their standing, statuses only decline, sessions only end, and stay bound if the reports are among separate pairs |
| `Outcomes.WalkSucceeds` | warden/casdoor_directory.go:251-271 | for any order: succeeds if and only if every visited subject can be fetched and moves no tenant to another organization |
| `Outcomes.CoveredSettles` | warden/casdoor_directory.go:218-271 | convergence, for every directory and every shaped store: each stored record of a known subject in a mapped tenant ends disabled and signed out, or carries a current report about its identifier |
| `Outcomes.AllSettle` | warden/casdoor_directory.go:218-271 | the same for every record left about a known subject in a mapped tenant, new ones included |
| `Outcomes.EnabledIsVouched` | warden/casdoor_directory.go:120-165 | whoever is settled and not disabled is found, a member and not blocked in the directory, and each of its roles is justified |
| `Outcomes.NonMembersOut` | warden/casdoor_directory.go:139-145 | whoever lacks a required group of each mapping of the record's tenant ends disabled and signed out |
| `Outcomes.OutsideExactly` | warden/casdoor_directory.go:251-269 | a record of another tenant or an unknown subject is left alone by every success if and only if no report about a known subject has its identifier; otherwise it is taken over |
| `Outcomes.NewRecords` | warden/casdoor_directory.go:251-258 | new records belong to known subjects and mapped tenants, finished or not |
| `Reconcile.SyncCarries` | warden/directory.go:13-87 | a successful sync carries out one more entry of the plan |
| `Reconcile.RevokeCarries` | warden/directory.go:126-135 | a revocation carries out one more entry of the plan |
| `Reconcile.WalkCarries` | warden/casdoor_directory.go:251-271 | every successful walk, over any identifiers, leaves exactly what its plan says: all tenants, principals and sessions |
| `Reconcile.WalkProjects` | warden/casdoor_directory.go:251-258 | about each identifier, the last reporting subject of the order wins |
| `Reconcile.WalkRevokes` | warden/casdoor_directory.go:259-268 | an identifier is disabled if and only if some report disables it or some subject loses it, whatever the order |
| `Reconcile.PlanUnique` | warden/casdoor_directory.go:251-271 | if no identifier is shared, orders of the same subjects have the same plan |
| `Reconcile.OrderIndependent` | warden/casdoor_directory.go:251-271 | then two successes from one state end with the same tenants, principals and sessions |
| `Reconcile.OrderExactly` | warden/casdoor_directory.go:251-271 | the order of the walk does not matter if and only if no identifier is reported for two known subjects |
| `Reconcile.ApartUnshared` | warden/directory.go:218-226 | mapped tenants and known subjects told apart by their identifiers share none |
| `Reconcile.CleanApart` | warden/directory.go:218-226 | trimmed, NUL-free pairs are told apart |
| `Reconcile.Converges` | warden/casdoor_directory.go:218-271 | if no identifier is shared, each such record is what the report about its own subject projects to, or is disabled and signed out |
| `Reconcile.Untouched` | warden/casdoor_directory.go:259-268 | if owners are told apart, records of other tenants and of unknown subjects are left alone, with their sessions |
| `Reconcile.Fixpoint` | warden/casdoor_directory.go:221-271 | if no identifier is shared, a second success changes no tenant, principal or session |
| `Reconcile.RepeatSucceeds` | warden/casdoor_directory.go:221-271 | for any identifiers: nothing a success stored stands in the way of the next |
| `Directories.WalkRun` | warden/casdoor_directory.go:251-271 | a reconciliation, finished or not, is a stretch of a run: syncs of known subjects and revocations of their records |
| `Directories.ReconcileBinds` | warden/casdoor_directory.go:251-271 | after any run with reports among separate pairs it leaves every session bound |
| `Directories.LastShaped` | warden/memory_store.go:10-31 | every store that a run reaches has the shape that the reconciliation theorems ask for |
| `Directories.DirectoryWithin` | warden/casdoor_directory.go:120-165 | which pairs the directory can report |
| `Directories.StrayTaken` | warden/casdoor_directory.go:57-91 | a reachable store and accepted mappings for "t" and "v": every success moves the record of a user of the unmapped tenant " t" out of it |
| `Mdns.MustName` | discovery/mdns.go:228-239 | the loop writes every label, cut to 63, with its length |
| `Mdns.AppendSRV` | discovery/mdns.go:201-208 | the SRV record with the port truncated to 16 bits |
| `Mdns.AppendTXT` | discovery/mdns.go:210-221 | the TXT record with every string cut to 255 |
| `Mdns.BuildAnnouncement` | discovery/mdns.go:143-158 | the growing buffer ends as header and four records |
| `Mdns.TakeRecordOf` | discovery/mdns.go:187-199 | a record with a well-formed name decodes and its data length is exact |
| `Mdns.DecodedIsEncodable` | discovery/mdns.go:143-158 | only well-formed names and a 16-bit port can have decoded |
| `Mdns.AnnouncementDecodes` | discovery/mdns.go:143-239 | the announcement decodes to its last byte to the intended PTR, SRV, TXT and A records if and only if no label is empty, names fit 255 octets and the port fits 16 bits |
| `Mdns.DefaultEncodable` | discovery/mdns.go:36-44 | with the default configuration that condition is: an identifier and a 16-bit port |
| `Mdns.DefaultAnnouncement` | discovery/mdns.go:143-199 | what the network hears of an instance: its records, labels, port, ten texts and address |
| `Mdns.ServiceLabels` | discovery/mdns.go:160-172 | the labels of a service and of its instance, under any configuration |
| `Resp.WriteCommand` | discovery/redis.go:139-149 | succeeds exactly when the connection takes the whole command; otherwise exactly the bytes that fit were sent |
| `Resp.ParseCommandOf` | discovery/redis.go:139-149 | a command of arbitrary byte arguments parses back, whatever follows it |
| `Resp.CommandSettled` | discovery/redis.go:139-149 | more input never changes what the parser has accepted or refused |
| `Resp.CutCommandIncomplete` | discovery/redis.go:139-149 | a command cut anywhere is seen as unfinished |
| `Resp.StreamParses` | discovery/redis.go:139-149 | a stream broken at any byte yields exactly the commands written before |
| `Resp.AfterWrite` | discovery/redis.go:139-149 | what a server reads after one more write, complete or not |
| `Resp.EncodeAllInjective` | discovery/redis.go:139-149 | different command sequences have different encodings |
| `OidcGate.StepKeeps` | warden/oidc_authority.go:11-42 | any step of any caller keeps the gate, client, backoff and call history consistent |
| `OidcGate.OneCallInFlight` | warden/oidc_authority.go:20-24 | at most one factory call is in flight, and no returned caller holds the gate |
| `OidcGate.SameClient` | warden/oidc_authority.go:26-28 | all callers that resolve a client get the same one |
| `OidcGate.CallHistory` | warden/oidc_authority.go:26-41 | calls are serial, none follows a success, none starts within two seconds of a failure |
| `OidcGate.CancelledChangesNothing` | warden/oidc_authority.go:32-35 | a cancelled attempt leaves client and backoff as they were: the next waiting caller may start a call at that very instant |
| `OidcGate.HolderGetsOut` | warden/oidc_authority.go:21-22 | from any point inside, the holder releases the gate by its own steps |
| `OidcGate.CancelledOnly` | warden/oidc_authority.go:20-35 | a caller returns as cancelled only if it was |
| `OidcGate.Authority.ResolveOIDC` | warden/oidc_authority.go:11-42 | one undisturbed call: each outcome, the fields it leaves, and that it is a run of the protocol |
| `OidcLogin.OneExchangePerLogin` | warden/service.go:403-438 | under every interleaving two exchanges never come from one stored login |
| `OidcLogin.ExchangeIsBound` | warden/service.go:419-438 | every exchange uses the verifier of a begun login, from a callback with that login's binding, in time |
| `OidcLogin.WrongBindingLeavesLogin` | warden/memory_store.go:109-123 | a take with another binding leaves the login for the right callback |
| `OidcLogin.ExchangeExactly` | warden/service.go:403-438 | exactly when an undisturbed callback leads to an exchange, and with what |
| `OidcLogin.ReachableInv` | warden/memory_store.go:91-123 | a begun login is stored, held by one callback, or exchanged: never two of these |
| `OidcLogin.LoginStore.TakeBound` | warden/memory_store.go:109-123 | consumes a login if and only if the binding matches |
| `OidcLogin.LoginStore.CompleteCallback` | warden/service.go:403-438 | one undisturbed callback is a run of the protocol |
| `Registrations.StepKeeps` | discovery/registration.go:18-68 | every step keeps the provider's view in agreement with where the goroutines are |
| `Registrations.CallsInOrder` | discovery/registration.go:18-68 | under every interleaving the provider sees Register, heartbeats, then at most one Deregister and one Close, without overlap |
| `Registrations.StopMeansClosed` | discovery/registration.go:32-47 | any `Stop` that has returned did so after Close |
| `Registrations.NoBeatAfterDeregister` | discovery/registration.go:32-68 | no heartbeat begins after Deregister has |
| `Registrations.StopOnce` | discovery/registration.go:32-47 | however many `Stop` calls run, there is at most one Deregister and one Close |
| `Registrations.OnlyOwnerFails` | discovery/registration.go:32-47 | at most one `Stop` of a run reports an error, and only if Deregister or Close failed |
| `Registrations.FailureReported` | discovery/registration.go:32-47 | once the takedown is over, some `Stop` has reported an error exactly if Deregister or Close failed |
| `Registrations.Registration.Start` | discovery/registration.go:18-30 | registers once, and runs only on success |
| `Registrations.Registration.Beat` | discovery/registration.go:59-66 | one heartbeat per tick, its error ignored |
| `Registrations.Registration.Stop` | discovery/registration.go:32-47 | takes the service down the first time and does nothing later |
| `Templates.Render` | warden/template.go:79-87 | the result is that of some order of the keys, each used once |
| `Templates.RenderedOnce` | warden/template.go:79-87 | for such templates the rendered string is the simultaneous substitution, whatever order the walk took |
| `Templates.ReplaceFills` | warden/template.go:79-87 | one replacement fills exactly the holes of its key |
| `Templates.Confluent` | warden/template.go:79-87 | for brace-free keys, and values and literals in which no two opening braces meet, every order gives the simultaneous substitution |
| `Templates.PlaceholderValueOrders` | warden/template.go:79-87 | whenever one key's value is another's placeholder, two orders give different results |

## Left out

- Contexts: cancellation and deadlines of calls are modelled only in the discovery gate and the registration; a reconciliation cancelled midway is one that failed.
- Concurrency inside a Warden call: calls are atomic, so the store's locks and a call interrupted by another are not modelled, except for OIDC logins.
- `completeOIDCCallback` after the exchange: it is a directory sync, a sign-in and a validation, each of which is a call of the runs.
- Token verification by the identity provider, discovery documents and the building of the authorization URL: foreign libraries.
- The identity context returned by a switch or callback (lists of apps and tenants): derived data; the validation it performs is modelled.
- The GORM store, HTTP handlers, cookies, CSRF, Casdoor sidecar and proxy, Consul, mailer and security notifications: I/O and foreign libraries.
- `SignSystemInternalJWT`: its claims have no tenant and no principal type, so its tokens never validate.
- The built-in role table, listing and limit helpers, console access and app lists: data and easy members. The default policy is the parameter `defaults` of `NewPolicy`.
- `normalizeRegistrationPolicy`, `NormalizeMasterSecret` (secrets are taken as normalized), `Normalize` of a service instance and e-mail masking: single-branch helpers.
- Integer width of times and durations: unbounded integers of nanoseconds; a Go `time.Duration` overflows after 292 years.
- A zero `Now` in a Warden request, which the code replaces by the wall clock: the clock argument is taken as given.
- Time stamps and identifiers of audit events, and update times of records.
- Lower-casing beyond ASCII in role names and actions, and upper-casing beyond ASCII in device user codes.
- `digest`: the code keeps 12 of SHA-256's 32 bytes in projected identifiers; injectivity is a premise.
- HTTP transport of directory answers: an answer is a failure, nothing, or a user record; base URL and client credentials of the source's configuration are not checked.
- The policy version string changes at run time in the code; it only labels tokens and is constant here.
- The mDNS registrar's socket, its record map and its periodic announcements; the Redis registrar's dialling, replies and single retry.
- A nil template data map, which renders like an empty one, and the template registry.
- Templates.Confluent: says nothing of values in which opening braces meet and that are not a placeholder of some key; some are harmless, such as two values that are both the placeholder of one of their keys.
- Registrations.Registration.Stop: one goroutine at a time; the interleavings are in the protocol lemmas.
