/** The Warden service, changed in place call by call. Every method is proved to take the state and
    produce the result that the functions of Iam give. */
module Services {
  import opened Text
  import opened Calendar
  import opened Policies
  import opened Iam
  import opened MemoryStores

  /** `StableProjectionID`: the parts are fed to the hash one after the other. */
  method ProjectionID(digest: string -> string, prefix: string, parts: seq<string>) returns (id: string)
    ensures id == StableProjectionID(digest, prefix, parts)
  {
    hide TrimSpace;
    var input := "";
    for i := 0 to |parts|
      invariant input + Encode(parts[i..]) == Encode(parts)
    {
      var part := TrimSpace(parts[i]) + [NUL];
      assert parts[i..][0] == parts[i] && parts[i..][1..] == parts[i + 1..];
      AppendAssociates(input, part, Encode(parts[i + 1..]));
      input := input + part;
    }
    assert input == Encode(parts);
    id := prefix + "_" + digest(input);
  }

  method EvalDirectoryRoles(roles: seq<string>) returns (out: seq<RoleGrant>)
    ensures out == NormalizedDirectoryRoles(roles)
  {
    hide NormalizeRoleKey;
    out := [];
    for i := 0 to |roles|
      invariant out == DistinctRoles(roles[..i])
    {
      var key := NormalizeRoleKey(roles[i]);
      assert roles[..i + 1][..i] == roles[..i];
      if key.Some? && RoleGrant(key.value, "", "") !in out { out := out + [RoleGrant(key.value, "", "")]; }
    }
    assert roles[..|roles|] == roles;
    if out == [] { out := [RoleGrant(ROLE_FRONTEND_USER, "", "")]; }
  }

  method EvalUnknownRoles(roles: seq<string>) returns (out: seq<string>)
    ensures out == UnknownDirectoryRoles(roles)
  {
    hide NormalizeRoleKey, TrimSpace;
    out := [];
    for i := 0 to |roles|
      invariant out == UnknownDirectoryRoles(roles[..i])
    {
      var name := TrimSpace(roles[i]);
      assert roles[..i + 1][..i] == roles[..i];
      if name != "" && NormalizeRoleKey(name).None? && name !in out { out := out + [name]; }
    }
    assert roles[..|roles|] == roles;
  }

  method EvalDirectoryTeams(env: Env, tenantID: string, groups: seq<Group>) returns (out: seq<Team>)
    ensures out == DirectoryTeams(env, tenantID, groups)
  {
    hide Blank, DirectoryTeam;
    out := [];
    for i := 0 to |groups|
      invariant out == DirectoryTeams(env, tenantID, groups[..i])
    {
      assert groups[..i + 1][..i] == groups[..i];
      if !Blank(groups[i].id) { out := out + [DirectoryTeam(env, tenantID, groups[i])]; }
    }
    assert groups[..|groups|] == groups;
  }

  method EvalRoleKeys(roles: seq<RoleGrant>) returns (out: seq<string>)
    ensures out == RoleKeys(roles)
  {
    hide NormalizeRoleKey;
    out := [];
    for i := 0 to |roles|
      invariant out + RoleKeys(roles[i..]) == RoleKeys(roles)
    {
      assert roles[i..][0] == roles[i] && roles[i..][1..] == roles[i + 1..];
      var key := NormalizeRoleKey(roles[i].key);
      if key.Some? { out := out + [key.value]; }
    }
  }

  class Service {
    const env: Env
    const store: MemoryStore
    var policy: Policy
    var registration: Registration

    /** The identity state of the service. */
    ghost function View(): State
      reads this, store
    {
      store.State(policy, registration)
    }

    /** What the validation at the start of a session's call would give. */
    ghost function Checked(sessionID: string, now: Time, source: Source): Validated
      reads this, store
    {
      Iam.ValidateSession(env, View(), sessionID, now, source)
    }

    constructor (env: Env, store: MemoryStore, policy: Policy, registration: Registration)
      ensures this.env == env && this.store == store
      ensures View() == store.State(policy, registration)
    {
      this.env, this.store, this.policy, this.registration := env, store, policy, registration;
    }

    method UpdatePolicy(policy: Policy)
      modifies this`policy
      ensures View() == old(View()).(policy := policy)
    {
      this.policy := policy;
    }

    method UpdateRegistrationPolicy(registration: Registration)
      modifies this`registration
      ensures View() == old(View()).(registration := registration)
    {
      this.registration := registration;
    }

    method Audit(p: Principal, action: string, resource: Option<Jwt.ResourceRef>, decision: string, jwtID: string, actor: Option<Jwt.ActorRef>)
      modifies store`audits
      ensures View() == AuditedBy(old(View()), p, action, resource, decision, jwtID, actor)
    {
      store.AppendAudit(AuditEvent(p.tenantID, p.kind, p.id, action, resource, decision, jwtID, actor));
    }

    // ----- directory -----

    method AuditUnknownRoles(p: Principal, roles: seq<string>)
      modifies store`audits
      ensures View() == old(View()).(audits := old(View()).audits + UnknownRoleAudits(p, UnknownDirectoryRoles(roles)))
    {
      hide UnknownDirectoryRoles;
      var unknown := EvalUnknownRoles(roles);
      for i := 0 to |unknown|
        invariant View() == old(View()).(audits := old(View()).audits + UnknownRoleAudits(p, unknown)[..i])
      {
        Audit(p, "directory.unknown_role", Some(Jwt.ResourceRef("role", unknown[i])), "deny", "", None);
        assert UnknownRoleAudits(p, unknown)[..i + 1] == UnknownRoleAudits(p, unknown)[..i] + [UnknownRoleAudits(p, unknown)[i]];
      }
      assert UnknownRoleAudits(p, unknown)[..|unknown|] == UnknownRoleAudits(p, unknown);
    }

    /** Stores the tenant of a snapshot; refuses to move it to another organization. */
    method StoreTenant(tenant: Tenant) returns (ok: bool)
      modifies store`tenants
      ensures ok <==> OrgAllowed(old(store.tenants), tenant)
      ensures store.tenants == if ok then old(store.tenants)[tenant.id := SettledTenant(old(store.tenants), tenant)] else old(store.tenants)
    {
      var settled := tenant;
      var known := tenant.id in store.tenants;
      if known && store.tenants[tenant.id].status.Disabled? { settled := settled.(status := Disabled); }
      if known && store.tenants[tenant.id].orgName != "" && store.tenants[tenant.id].orgName != tenant.orgName { return false; }
      if settled.status.Unset? { settled := settled.(status := Active); }
      store.UpsertTenant(settled);
      ok := true;
    }

    /** The record a snapshot projects to, before its status is settled. */
    method BuildPrincipal(snap: Snapshot) returns (p: Principal)
      ensures p == Projected(env, store.principals, registration, snap).(status := Active)
    {
      hide NormalizedDirectoryRoles, DirectoryTeams;
      var id := ProjectionID(env.digest, "principal", [snap.tenant.id, snap.user.id]);
      var roles := EvalDirectoryRoles(snap.roles);
      var teams := EvalDirectoryTeams(env, snap.tenant.id, snap.groups);
      p := Principal(id, snap.tenant.id, snap.user.id, snap.user.username, snap.user.email, snap.user.displayName, User,
                     Active, snap.user.emailVerified, roles, teams);
    }

    /** A stored principal keeps its status; a new one gets what registration allows. */
    method SettleStatus(id: string, disabled: bool) returns (status: Status)
      ensures status == ProjectedStatus(store.principals, registration, id, disabled)
    {
      status := Active;
      var known := id in store.principals && store.principals[id].id != "";
      if known { status := store.principals[id].status; }
      if disabled {
        status := Disabled;
      } else if !known && !registration.Open? {
        status := Pending;
      }
    }

    method SyncDirectorySnapshot(snap: Snapshot) returns (r: Result<Principal, Error>)
      modifies store
      ensures (View(), r) == SyncSnapshot(env, old(View()), snap)
    {
      hide TrimSpace, NormalizedDirectoryRoles, DirectoryTeams, PrincipalID, WithoutSessionsOf, UnknownRoleAudits, UnknownDirectoryRoles,
           ProjectedStatus, SettledTenant, OrgAllowed;
      if Blank(snap.tenant.id) || Blank(snap.user.id) { return Err(InvalidInput); }
      var stored := StoreTenant(snap.tenant);
      if !stored { return Err(InvalidInput); }
      var p := BuildPrincipal(snap);
      AuditUnknownRoles(p, snap.roles);
      ghost var unknownAudits := UnknownRoleAudits(p, UnknownDirectoryRoles(snap.roles));
      var status := SettleStatus(p.id, snap.user.disabled);
      p := p.(status := status);
      AuditsIgnoreStatus(p, p.(status := Active), UnknownDirectoryRoles(snap.roles));
      assert p == Projected(env, old(store.principals), registration, snap);
      store.UpsertPrincipal(p);
      if p.status.Disabled? { store.DeleteSessionsByPrincipal(p.id); }
      Audit(p, "directory.sync", None, "allow", "", None);
      assert store.audits == old(store.audits) + SyncAudits(p, snap.roles);
      r := Ok(p);
    }

    static lemma AuditsIgnoreStatus(p: Principal, q: Principal, unknown: seq<string>)
      requires p == q.(status := p.status)
      ensures UnknownRoleAudits(p, unknown) == UnknownRoleAudits(q, unknown)
    {
    }

    /** The part of `SyncDirectoryUser` after the source has answered. */
    method SyncReported(reported: Result<seq<Snapshot>, Error>, subject: string) returns (r: Result<seq<Principal>, Error>)
      modifies store
      ensures (View(), r) == SyncReport(env, old(View()), reported, subject)
    {
      hide SyncSnapshot;
      if reported.Err? { return Err(reported.error); }
      var snaps := reported.value;
      for i := 0 to |snaps|
        invariant forall j :: 0 <= j < i ==> snaps[j].user.id == subject
        invariant View() == old(View())
      {
        if snaps[i].user.id != subject { assert snaps[i] in snaps; return Err(Unauthorized); }
      }
      assert !exists snap :: snap in snaps && snap.user.id != subject;
      var principals: seq<Principal> := [];
      assert snaps[0..] == snaps && forall rest: seq<Principal> :: [] + rest == rest;
      for i := 0 to |snaps|
        invariant SyncAll(env, old(View()), snaps) == Prepended(principals, SyncAll(env, View(), snaps[i..]))
      {
        assert snaps[i..][0] == snaps[i] && snaps[i..][1..] == snaps[i + 1..];
        var synced := SyncDirectorySnapshot(snaps[i]);
        if synced.Err? { return Err(synced.error); }
        assert forall rest: seq<Principal> :: principals + ([synced.value] + rest) == (principals + [synced.value]) + rest;
        principals := principals + [synced.value];
      }
      assert snaps[|snaps|..] == [] && principals + [] == principals;
      r := Ok(principals);
    }

    ghost function Prepended(done: seq<Principal>, rest: (State, Result<seq<Principal>, Error>)): (State, Result<seq<Principal>, Error>) {
      (rest.0, if rest.1.Err? then rest.1 else Ok(done + rest.1.value))
    }

    method SyncDirectoryUser(source: Source, subject: string) returns (r: Result<seq<Principal>, Error>)
      modifies store
      ensures (View(), r) == Iam.SyncDirectoryUser(env, old(View()), source, subject)
    {
      hide SyncReport;
      if Blank(subject) { return Err(InvalidInput); }
      r := SyncReported(source(subject), subject);
    }

    method RevokeDirectoryPrincipal(p: Principal) returns (e: Error)
      modifies store
      ensures (View(), e) == Iam.RevokeDirectoryPrincipal(old(View()), p)
    {
      var ok := store.UpdatePrincipalStatus(p.id, Disabled);
      if !ok { return NotFound; }
      store.DeleteSessionsByPrincipal(p.id);
      Audit(p, "directory.membership_revoked", None, "deny", "", None);
      e := Unauthorized;
    }

    method RefreshDirectoryPrincipal(p: Principal, source: Source) returns (r: Result<Principal, Error>)
      modifies store
      ensures (View(), r) == Iam.RefreshDirectoryPrincipal(env, old(View()), p, source)
    {
      hide Iam.SyncDirectoryUser, Iam.RevokeDirectoryPrincipal;
      var synced := SyncDirectoryUser(source, p.externalID);
      if synced.Err? { return Err(synced.error); }
      ghost var s1 := View();
      for i := 0 to |synced.value|
        invariant FindByID(synced.value, p.id) == FindByID(synced.value[i..], p.id)
        invariant View() == s1
      {
        assert synced.value[i..][0] == synced.value[i] && synced.value[i..][1..] == synced.value[i + 1..];
        if synced.value[i].id == p.id { return Ok(synced.value[i]); }
      }
      assert FindByID(synced.value, p.id).None?;
      var e := RevokeDirectoryPrincipal(p);
      r := Err(e);
    }

    // ----- sessions -----

    method CreateSession(principalID: string, now: Time, random: string) returns (r: Result<Session, Error>)
      modifies store
      ensures (View(), r) == Iam.CreateSession(env, old(View()), principalID, now, random)
    {
      if principalID !in store.principals { return Err(NotFound); }
      var p := store.principals[principalID];
      if p.tenantID !in store.tenants { return Err(NotFound); }
      if store.tenants[p.tenantID].status.Disabled? { return Err(AccountDisabled); }
      if p.status.Disabled? { return Err(AccountDisabled); }
      if p.status.Pending? { return Err(AuthorizationPending); }
      var session := Session("sess_" + random, p.id, p.tenantID, "", now, now + env.sessionTTL, "web_session");
      store.PutSession(session);
      r := Ok(session);
    }

    method ValidateSession(sessionID: string, now: Time, source: Source) returns (r: Result<Valid, Error>)
      modifies store
      ensures (View(), r) == Iam.ValidateSession(env, old(View()), sessionID, now, source)
    {
      hide Iam.RefreshDirectoryPrincipal;
      var sid := TrimSpace(sessionID);
      if sid !in store.sessions { return Err(Unauthorized); }
      var session := store.sessions[sid];
      if Expired(session.expiresAt, now) {
        store.DeleteSession(session.id);
        return Err(Unauthorized);
      }
      if session.tenantID !in store.tenants || store.tenants[session.tenantID].status.Disabled? { return Err(Unauthorized); }
      if session.principalID !in store.principals { return Err(Unauthorized); }
      var p := store.principals[session.principalID];
      if p.tenantID != session.tenantID { return Err(Unauthorized); }
      if env.refreshOnSession && p.externalID != "" {
        var refreshed := RefreshDirectoryPrincipal(p, source);
        if refreshed.Err? {
          return Err(if refreshed.error.DirectoryUnavailable? then refreshed.error else Unauthorized);
        }
        p := refreshed.value;
      }
      if p.status.Disabled? { return Err(AccountDisabled); }
      if p.status.Pending? { return Err(AuthorizationPending); }
      r := Ok(Valid(session, p));
    }

    method SelectTeam(p: Principal, teamID: string) returns (r: Result<string, Error>)
      ensures r == TeamSelection(p, teamID)
    {
      hide TrimSpace;
      var team := TrimSpace(teamID);
      if team == "" { return Ok(""); }
      for i := 0 to |p.teams|
        invariant forall j :: 0 <= j < i ==> !(p.teams[j].id == team && p.teams[j].tenantID == p.tenantID && !p.teams[j].status.Disabled?)
      {
        if p.teams[i].id == team && p.teams[i].tenantID == p.tenantID && !p.teams[i].status.Disabled? { return Ok(team); }
      }
      r := Err(Forbidden);
    }

    method FindSwitchTarget(p: Principal, tenantID: string) returns (found: Option<Principal>, ghost picked: string)
      requires p.externalID != ""
      ensures found.Some? ==> SwitchCandidate(View(), p, tenantID, picked) && found.value == store.principals[picked]
      ensures found.None? ==> forall id :: !SwitchCandidate(View(), p, tenantID, id)
    {
      var principals := store.ListPrincipalsByCasdoorUser(p.externalID);
      for i := 0 to |principals|
        invariant forall j :: 0 <= j < i ==> !(principals[j].tenantID == tenantID && !principals[j].status.Disabled?)
      {
        if principals[i].tenantID == tenantID && !principals[i].status.Disabled? {
          assert principals[i] in principals;
          ghost var id :| id in store.principals && store.principals[id] == principals[i];
          return Some(principals[i]), id;
        }
      }
      forall id ensures !SwitchCandidate(View(), p, tenantID, id) {
        if id in store.principals && store.principals[id].externalID == p.externalID {
          assert store.principals[id] in principals;
        }
      }
      return None, "";
    }

    method SwitchTenant(sessionID: string, tenantID: string, teamID: string, now: Time, source: Source, after: Source)
      returns (r: Result<Valid, Error>, ghost picked: string)
      modifies store
      ensures (View(), r) == Moved(env, MoveTenant(old(Checked(sessionID, now, source)), tenantID, teamID, picked), now, after)
      ensures var (s, v) := old(Checked(sessionID, now, source));
        v.Ok? && TrimSpace(tenantID) !in {"", v.value.session.tenantID} ==> PicksCandidate(s, v.value.principal, TrimSpace(tenantID), picked)
    {
      hide TrimSpace, Iam.ValidateSession;
      picked := "";
      r := ValidateSession(sessionID, now, source);
      if r.Err? { return; }
      var v := r.value;
      var target := TrimSpace(tenantID);
      if target == "" { r := Err(InvalidInput); return; }
      var p := v.principal;
      if target != v.session.tenantID {
        if p.externalID == "" { r := Err(Forbidden); return; }
        var found;
        found, picked := FindSwitchTarget(p, target);
        if found.None? { r := Err(Forbidden); return; }
        p := found.value;
      }
      var team := SelectTeam(p, teamID);
      if team.Err? { r := Err(team.error); return; }
      var ok := store.UpdateSessionContext(v.session.id, p.id, p.tenantID, team.value);
      if !ok { r := Err(NotFound); return; }
      r := ValidateSession(v.session.id, now, after);
    }

    method SwitchTeam(sessionID: string, teamID: string, now: Time, source: Source, after: Source) returns (r: Result<Valid, Error>)
      modifies store
      ensures (View(), r) == Moved(env, MoveTeam(old(Checked(sessionID, now, source)), teamID), now, after)
    {
      hide Iam.ValidateSession, TeamSelection;
      r := ValidateSession(sessionID, now, source);
      if r.Err? { return; }
      var v := r.value;
      var team := SelectTeam(v.principal, teamID);
      if team.Err? { return Err(team.error); }
      var ok := store.UpdateSessionContext(v.session.id, v.principal.id, v.session.tenantID, team.value);
      if !ok { return Err(NotFound); }
      r := ValidateSession(v.session.id, now, after);
    }

    // ----- administration -----

    method Administer(action: AdminAction, sessionID: string, principalID: string, now: Time, source: Source)
      returns (r: Result<Principal, Error>)
      modifies store
      ensures (View(), r) == Iam.Administer(old(Checked(sessionID, now, source)), action, principalID)
    {
      hide TrimSpace, Iam.ValidateSession, CanManageServiceAccounts;
      var valid := ValidateSession(sessionID, now, source);
      if valid.Err? { return Err(valid.error); }
      var actor := valid.value.principal;
      if !CanManageServiceAccounts(actor.roles) { return Err(Forbidden); }
      if Blank(principalID) { return Err(InvalidInput); }
      if action.Approve? || action.Reject? {
        if principalID !in store.principals { return Err(NotFound); }
        if !store.principals[principalID].status.Pending? { return Err(Forbidden); }
      }
      var disabling := action.Disable? || action.Reject?;
      var ok := store.UpdatePrincipalStatus(principalID, if disabling then Disabled else Active);
      if !ok { return Err(NotFound); }
      if disabling { store.DeleteSessionsByPrincipal(principalID); }
      var updated := store.principals[principalID];
      Audit(actor, AdminAudit(action), Some(Jwt.ResourceRef("principal", principalID)), "allow", "", None);
      r := Ok(updated);
    }

    // ----- keys and service accounts -----

    method HoldsScopes(p: Principal, scopes: seq<string>) returns (ok: bool)
      ensures ok <==> ScopesHeld(policy, p.roles, scopes)
    {
      hide ScopesForRoles, SliceSet;
      var held := EvalScopesForRoles(policy, p.roles);
      var allowed := EvalSliceSet(held);
      for i := 0 to |scopes|
        invariant forall j :: 0 <= j < i ==> scopes[j] in allowed
      {
        if scopes[i] !in allowed { assert scopes[i] in Elements(scopes); return false; }
      }
      ok := true;
    }

    method CreateAPIKey(sessionID: string, name: string, scopes: seq<string>, expiresAt: Time, now: Time, source: Source, random: KeyRandom)
      returns (r: Result<APIKey, Error>)
      modifies store
      ensures (View(), r) == Iam.CreateAPIKey(env, old(Checked(sessionID, now, source)), name, scopes, expiresAt, now, random)
    {
      hide Iam.ValidateSession, ScopesHeld;
      var valid := ValidateSession(sessionID, now, source);
      if valid.Err? { return Err(valid.error); }
      var p := valid.value.principal;
      var ok := HoldsScopes(p, scopes);
      if !ok { return Err(Forbidden); }
      var key := APIKey("key_" + random.keyID, TrimSpace(name), valid.value.session.tenantID, p.kind, p.id,
                        HashAPIKey(env, random.token), scopes, expiresAt, KeyActive, now, ZERO_TIME);
      store.PutAPIKey(key);
      Audit(p, "api_key.create", None, "allow", "", None);
      r := Ok(key);
    }

    method CreateServiceAccountToken(sessionID: string, name: string, scopes: seq<string>, expiresAt: Time, now: Time, source: Source,
                                     random: KeyRandom) returns (r: Result<APIKey, Error>)
      modifies store
      ensures (View(), r) == Iam.CreateServiceAccountToken(env, old(Checked(sessionID, now, source)), name, scopes, expiresAt, now, random)
    {
      hide TrimSpace, Iam.ValidateSession, ScopesHeld, HashAPIKey, CanManageServiceAccounts;
      var valid := ValidateSession(sessionID, now, source);
      if valid.Err? { return Err(valid.error); }
      var creator, tenantID := valid.value.principal, valid.value.session.tenantID;
      if !CanManageServiceAccounts(creator.roles) { return Err(Forbidden); }
      var trimmed := TrimSpace(name);
      if trimmed == "" { return Err(InvalidInput); }
      var ok := HoldsScopes(creator, scopes);
      if !ok { return Err(Forbidden); }
      var id := SERVICE_PREFIX + random.accountID;
      var key := APIKey("key_" + random.keyID, "", tenantID, ServiceAccount, id, HashAPIKey(env, random.token), scopes,
                        expiresAt, KeyActive, now, ZERO_TIME);
      store.UpsertPrincipal(ServicePrincipal(id, tenantID, "", trimmed, trimmed));
      store.PutServiceAccount(Account(id, tenantID, trimmed, Active, creator.id, now));
      store.PutAPIKey(key);
      Audit(creator, "service_account.create_token", Some(Jwt.ResourceRef("service_account", id)), "allow", "", None);
      r := Ok(key);
    }

    method DisableServiceAccount(sessionID: string, accountID: string, now: Time, source: Source) returns (r: Result<(), Error>)
      modifies store
      ensures (View(), r) == Iam.DisableServiceAccount(old(Checked(sessionID, now, source)), accountID)
    {
      hide TrimSpace, Iam.ValidateSession, CanManageServiceAccounts;
      var valid := ValidateSession(sessionID, now, source);
      if valid.Err? { return Err(valid.error); }
      if !CanManageServiceAccounts(valid.value.principal.roles) { return Err(Forbidden); }
      if Blank(accountID) { return Err(InvalidInput); }
      var ok := store.DisableServiceAccount(accountID, valid.value.session.tenantID);
      if !ok { return Err(Forbidden); }
      Audit(valid.value.principal, "service_account.disable", Some(Jwt.ResourceRef("service_account", accountID)), "allow", "", None);
      r := Ok(());
    }

    method RevokeAPIKey(sessionID: string, keyID: string, now: Time, source: Source) returns (r: Result<(), Error>, ghost picked: string)
      modifies store
      ensures (View(), r) == Iam.RevokeAPIKey(old(Checked(sessionID, now, source)), keyID, picked)
      ensures var (s, v) := old(Checked(sessionID, now, source));
        v.Ok? && !Blank(keyID) ==> PicksKey(s, keyID, v.value.principal.id, picked)
    {
      hide TrimSpace, Iam.ValidateSession;
      picked := "";
      var valid := ValidateSession(sessionID, now, source);
      if valid.Err? { r := Err(valid.error); return; }
      if Blank(keyID) { r := Err(InvalidInput); return; }
      var ok;
      ok, picked := store.RevokeAPIKey(keyID, valid.value.principal.id);
      if !ok { r := Err(Forbidden); return; }
      Audit(valid.value.principal, "api_key.revoke", Some(Jwt.ResourceRef("api_key", keyID)), "allow", "", None);
      r := Ok(());
    }

    method ValidateAPIKey(token: string, now: Time) returns (r: Result<ValidKey, Error>, ghost picked: string)
      modifies store
      ensures (View(), r) == Iam.ValidateAPIKey(env, old(View()), token, now, picked)
      ensures r.Err? ==> !r.error.NotFound?
    {
      picked := "";
      var hash := HashAPIKey(env, token);
      if hash !in store.apiKeys { r := Err(Unauthorized); return; }
      var key := store.apiKeys[hash];
      if !key.status.KeyActive? || Expired(key.expiresAt, now) { r := Err(Unauthorized); return; }
      if key.principalID !in store.principals { r := Err(Unauthorized); return; }
      var p := store.principals[key.principalID];
      if p.status.Disabled? { r := Err(AccountDisabled); return; }
      var ok;
      ok, picked := store.TouchAPIKeyLastUsed(key.id, now);
      assert ok;
      r := Ok(ValidKey(key.(lastUsedAt := now), p));
    }

    // ----- tokens -----

    method Issue(g: Grant, req: TokenRequest) returns (r: Result<Issued, Error>)
      modifies store
      ensures (View(), r) == Iam.Issue(env, old(View()), g, req)
    {
      hide Jwt.Sign, RoleKeys;
      var p, session := g.principal, g.session;
      var keys := EvalRoleKeys(p.roles);
      var input := Jwt.SignInput("", req.audience, g.ttl, session.tenantID, "", KindName(p.kind), p.id, p.email, p.displayName, p.username,
                                 keys, g.scopes, req.resource, session.id, session.authTime, g.source, req.now, req.jwtID,
                                 g.actor, g.delegation, env.policyVersion);
      var signed := Jwt.Sign(env.codec, env.signer, input, req.now, req.randomID);
      if signed.Err? { return Err(SignFailed(signed.error)); }
      Audit(p, "internal_jwt.sign", req.resource, "allow", signed.value.1.jwtID, g.actor);
      r := Ok(Issued(signed.value.0, signed.value.1));
    }

    method SignForSession(sessionID: string, req: TokenRequest, source: Source) returns (r: Result<Issued, Error>)
      modifies store
      ensures (View(), r) == SignGranted(env, GrantSession(env, old(Checked(sessionID, req.now, source)), req), req)
    {
      hide Iam.ValidateSession, Iam.Issue, ScopesForActions;
      var valid := ValidateSession(sessionID, req.now, source);
      if valid.Err? { return Err(valid.error); }
      var p := valid.value.principal;
      var scopes := EvalScopesForActions(policy, p.roles, req.audience, req.actions);
      if scopes == [] {
        Audit(p, "internal_jwt.sign", req.resource, "deny", "", None);
        return Err(Forbidden);
      }
      r := Issue(Grant(p, valid.value.session, scopes, "web_session", None, None, env.internalTTL), req);
    }

    method SignForAPIKey(token: string, req: TokenRequest) returns (r: Result<Issued, Error>, ghost picked: string)
      modifies store
      ensures (View(), r) == SignGranted(env, GrantKey(env, Iam.ValidateAPIKey(env, old(View()), token, req.now, picked), req), req)
    {
      hide Iam.Issue, ScopesForActions;
      var valid;
      valid, picked := ValidateAPIKey(token, req.now);
      if valid.Err? { r := Err(valid.error); return; }
      var key, p := valid.value.key, valid.value.principal;
      var requested := EvalScopesForActions(policy, p.roles, req.audience, req.actions);
      var scopes := EvalIntersectScopes(key.scopes, requested);
      if scopes == [] {
        Audit(p, "internal_jwt.sign", req.resource, "deny", "", None);
        r := Err(Forbidden);
        return;
      }
      r := Issue(Grant(p, Session(key.id, p.id, key.tenantID, "", key.createdAt, key.expiresAt, "api_key"), scopes, "api_key", None, None,
                       env.internalTTL), req);
    }

    method SignForClient(claims: ClientClaims, req: TokenRequest) returns (r: Result<Issued, Error>)
      modifies store
      ensures (View(), r) == SignGranted(env, GrantClient(env, old(View()), claims, req), req)
    {
      hide Iam.Issue, ScopesForActions, TrimSpace;
      var tenantID := TrimSpace(claims.tenantID);
      if tenantID == "" { return Err(Unauthorized); }
      if claims.scopes == [] { return Err(Forbidden); }
      if tenantID in store.tenants {
        if store.tenants[tenantID].status.Disabled? { return Err(AccountDisabled); }
      } else {
        store.UpsertTenant(Tenant(tenantID, "", tenantID, tenantID, Active));
      }
      var p := ClientPrincipal(env, tenantID, claims);
      store.UpsertPrincipal(p);
      store.PutServiceAccount(Account(p.id, tenantID, p.displayName, Active, "casdoor", req.now));
      assert View() == WithClient(env, old(View()), tenantID, claims, req.now);
      var requested := EvalScopesForActions(policy, p.roles, req.audience, req.actions);
      var scopes := EvalIntersectScopes(claims.scopes, requested);
      if scopes == [] {
        Audit(p, "internal_jwt.sign", req.resource, "deny", "", None);
        return Err(Forbidden);
      }
      r := Issue(Grant(p, Session("client_credentials:" + claims.subject, p.id, tenantID, "", req.now, claims.expiresAt * SECOND,
                                  "service_token"), scopes, "service_token", None, None, env.internalTTL), req);
    }

    method DelegateAgent(sessionID: string, runID: string, scopes: seq<string>, req: TokenRequest, source: Source, random: string)
      returns (r: Result<Issued, Error>)
      modifies store
      ensures (View(), r) == SignGranted(env, GrantAgent(env, old(Checked(sessionID, req.now, source)), runID, scopes, req, random), req)
    {
      hide Iam.ValidateSession, Iam.Issue, ScopesForActions, IntersectScopes;
      var valid := ValidateSession(sessionID, req.now, source);
      if valid.Err? { return Err(valid.error); }
      var actor, session := valid.value.principal, valid.value.session;
      var held := EvalScopesForActions(policy, actor.roles, req.audience, req.actions);
      var granted := EvalIntersectScopes(held, if scopes == [] then held else scopes);
      var doer := Some(Jwt.ActorRef(KindName(actor.kind), actor.id));
      if granted == [] {
        Audit(actor, "agent.delegate", req.resource, "deny", "", doer);
        return Err(Forbidden);
      }
      var run := TrimSpace(runID);
      if run == "" { run := "run_" + random; }
      var agent := AgentPrincipal(AGENT_PREFIX + run, actor.tenantID);
      store.UpsertPrincipal(agent);
      store.PutAgentRun(AgentRun(run, actor.tenantID, actor.id, agent.id, req.now));
      r := Issue(Grant(agent, session, granted, "agent_delegation", doer, Some(Jwt.DelegationRef(actor.id, session.id, run)), env.agentTTL), req);
    }

    // ----- device grant -----

    method StartDeviceAuth(now: Time, deviceCode: string, userCode: string)
      modifies store
      ensures View() == Iam.StartDeviceAuth(old(View()), now, deviceCode, userCode)
    {
      store.PutDeviceCode(DeviceCode(deviceCode, userCode, "", now + DEVICE_TTL, DevicePending, now));
    }

    method ApproveDeviceAuth(sessionID: string, rawCode: string, now: Time, source: Source) returns (r: Result<Principal, Error>, ghost picked: string)
      modifies store
      ensures (View(), r) == Iam.ApproveDeviceAuth(old(Checked(sessionID, now, source)), rawCode, now, picked)
      ensures var (s, v) := old(Checked(sessionID, now, source));
        v.Ok? && ToUpper(TrimSpace(rawCode)) != "" ==> PicksCode(s, ToUpper(TrimSpace(rawCode)), picked)
    {
      hide Iam.ValidateSession, ToUpper;
      picked := "";
      var valid := ValidateSession(sessionID, now, source);
      if valid.Err? { r := Err(valid.error); return; }
      var userCode := ToUpper(TrimSpace(rawCode));
      if userCode == "" { r := Err(InvalidInput); return; }
      var found;
      found, picked := store.GetDeviceCodeByUserCode(userCode);
      if found.None? { r := Err(Unauthorized); return; }
      var code, p := found.value, valid.value.principal;
      if Expired(code.expiresAt, now) { r := Err(Unauthorized); return; }
      if !code.status.DevicePending? { r := Err(Forbidden); return; }
      var ok := store.UpdateDeviceCode(code.(principalID := p.id, status := DeviceApproved));
      if !ok { r := Err(NotFound); return; }
      Audit(p, "device.approve", None, "allow", "", None);
      r := Ok(p);
    }

    method ExchangeDeviceToken(rawCode: string, now: Time, random: KeyRandom) returns (r: Result<APIKey, Error>)
      modifies store
      ensures (View(), r) == Iam.ExchangeDeviceToken(env, old(View()), rawCode, now, random)
    {
      hide HashAPIKey, ScopesForRoles;
      var deviceCode := TrimSpace(rawCode);
      if deviceCode == "" { return Err(InvalidInput); }
      if deviceCode !in store.deviceCodes { return Err(Unauthorized); }
      var code := store.deviceCodes[deviceCode];
      if Expired(code.expiresAt, now) { return Err(Unauthorized); }
      if code.status.DevicePending? { return Err(AuthorizationPending); }
      if code.status.DeviceConsumed? { return Err(Unauthorized); }
      if code.principalID !in store.principals { return Err(Unauthorized); }
      var p := store.principals[code.principalID];
      if p.status.Disabled? { return Err(AccountDisabled); }
      var scopes := EvalScopesForRoles(policy, p.roles);
      var key := APIKey("key_" + random.keyID, "", p.tenantID, p.kind, p.id, HashAPIKey(env, random.token), scopes,
                        now + DEVICE_KEY_TTL, KeyActive, now, ZERO_TIME);
      store.PutAPIKey(key);
      var ok := store.UpdateDeviceCode(code.(status := DeviceConsumed));
      if !ok { return Err(NotFound); }
      Audit(p, "device.token", None, "allow", "", None);
      r := Ok(key);
    }
  }
}
