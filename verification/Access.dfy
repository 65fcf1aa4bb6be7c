/** What each call does, read off the stored records: who may sign in, which sessions and keys are
    accepted, where a session may move, what an administrator's call changes, and whom a token names.
    These statements are about records only; they do not speak of the functions of Iam that they bind. */
module Access {
  import opened Text
  import opened Calendar
  import opened Policies
  import opened Iam
  import opened Identity

  // ----- vocabulary -----

  predicate Live(expiresAt: Time, now: Time) {
    expiresAt == ZERO_TIME || now < expiresAt
  }

  predicate TenantOpen(s: State, tenantID: string) {
    tenantID in s.tenants && s.tenants[tenantID].status != Status.Disabled
  }

  predicate Usable(p: Principal) {
    p.status != Status.Disabled && p.status != Pending
  }

  /** The maps agree except perhaps at one key. */
  ghost predicate SameElsewhere<V>(a: map<string, V>, b: map<string, V>, id: string) {
    forall k :: k != id ==> (k in a <==> k in b) && (k in a ==> a[k] == b[k])
  }

  /** Everything but the sessions, and every session but this one, is as before. */
  ghost predicate OnlySession(s: State, t: State, id: string) {
    t == s.(sessions := t.sessions) && t.sessions.Keys == s.sessions.Keys && forall k :: k in s.sessions && k != id ==> t.sessions[k] == s.sessions[k]
  }

  // ----- configuration -----

  /** What `NewService` settles on: positive lifetimes, and an agent lifetime no longer than the
      internal one except when the internal one is a nanosecond and the agent's own setting cannot be
      used. */
  lemma SettledLifetimes(cfg: Config, digest: string -> string, keyDigest: string -> string, codec: Jwt.Codec)
    requires NewService(cfg, digest, keyDigest, codec).Ok?
    ensures var env := NewService(cfg, digest, keyDigest, codec).value;
      && env.internalTTL > 0 && env.agentTTL > 0 && env.sessionTTL > 0
      && env.signer.secret == cfg.secret && env.signer.ttl == env.internalTTL
      && (env.agentTTL <= env.internalTTL <==> cfg.internalTTL != 1 || cfg.agentTTL == 1)
  {
    hide TrimSpace;
  }

  /** The lifetimes that are settled on, setting by setting: five minutes and a day by default; an agent's
      own if it is positive and within the internal one, and otherwise half of that, or a minute. */
  lemma LifetimesExactly(cfg: Config, digest: string -> string, keyDigest: string -> string, codec: Jwt.Codec)
    ensures var r := NewService(cfg, digest, keyDigest, codec);
      && (r.Ok? <==> |cfg.secret| >= 32)
      && (r.Ok? ==>
            && r.value.internalTTL == (if cfg.internalTTL > 0 then cfg.internalTTL else 300_000_000_000)
            && r.value.sessionTTL == (if cfg.sessionTTL > 0 then cfg.sessionTTL else 86_400_000_000_000)
            && (0 < cfg.agentTTL <= r.value.internalTTL ==> r.value.agentTTL == cfg.agentTTL)
            && (!(0 < cfg.agentTTL <= r.value.internalTTL) && r.value.internalTTL >= 2 ==>
                  r.value.agentTTL <= r.value.internalTTL - r.value.agentTTL <= r.value.agentTTL + 1)
            && (!(0 < cfg.agentTTL <= r.value.internalTTL) && r.value.internalTTL == 1 ==> r.value.agentTTL == 60_000_000_000)
            && r.value.signer.secret == cfg.secret && r.value.signer.issuer == (if TrimSpace(cfg.issuer) == "" then "warden" else TrimSpace(cfg.issuer))
            && r.value.refreshOnSession == cfg.refreshOnSession && r.value.policyVersion == TrimSpace(cfg.policyVersion)
            && r.value.digest == digest && r.value.keyDigest == keyDigest && r.value.codec == codec)
  {
    hide TrimSpace;
    TrimsItself("warden");
  }

  // ----- signing in -----

  /** Who gets a session, and which. */
  lemma SignInExactly(env: Env, s: State, id: string, now: Time, random: string)
    ensures var (t, r) := CreateSession(env, s, id, now, random);
      && (r.Ok? <==> id in s.principals && TenantOpen(s, s.principals[id].tenantID) && Usable(s.principals[id]))
      && (r.Err? ==> t == s && r == Err(if id !in s.principals || s.principals[id].tenantID !in s.tenants then NotFound
                                        else if s.principals[id].status == Pending && TenantOpen(s, s.principals[id].tenantID) then AuthorizationPending
                                        else AccountDisabled))
      && (r.Ok? ==>
            && r.value.principalID == s.principals[id].id && r.value.tenantID == s.principals[id].tenantID
            && r.value.authTime == now && r.value.expiresAt == now + env.sessionTTL && r.value.currentTeamID == "" && r.value.source == "web_session"
            && r.value.id in t.sessions && t.sessions[r.value.id] == r.value
            && t == s.(sessions := t.sessions) && SameElsewhere(s.sessions, t.sessions, r.value.id))
  {
  }

  // ----- sessions -----

  /** The session is stored, unexpired, in an open tenant, and its stored principal is in that tenant. */
  predicate Acceptable(s: State, sid: string, now: Time) {
    && sid in s.sessions && Live(s.sessions[sid].expiresAt, now)
    && TenantOpen(s, s.sessions[sid].tenantID)
    && s.sessions[sid].principalID in s.principals && s.principals[s.sessions[sid].principalID].tenantID == s.sessions[sid].tenantID
  }

  /** Why a record cannot be used. */
  function Unusable(p: Principal): Error {
    if p.status == Status.Disabled then AccountDisabled else AuthorizationPending
  }

  predicate Consults(env: Env, p: Principal) {
    env.refreshOnSession && p.externalID != ""
  }

  /** Which sessions are accepted when the call begins, and for whom. The directory, if it is consulted,
      has the last word. */
  lemma ValidateExactly(env: Env, s: State, sessionID: string, now: Time, source: Source)
    ensures var (t, r) := ValidateSession(env, s, sessionID, now, source);
      var sid := TrimSpace(sessionID);
      && (r.Ok? ==> Acceptable(s, sid, now) && r.value.session == s.sessions[sid] && Usable(r.value.principal))
      && (Acceptable(s, sid, now) && !Consults(env, s.principals[s.sessions[sid].principalID]) ==>
            t == s && (r.Ok? <==> Usable(s.principals[s.sessions[sid].principalID]))
            && (r.Err? ==> r == Err(Unusable(s.principals[s.sessions[sid].principalID])))
            && (r.Ok? ==> r.value.principal == s.principals[s.sessions[sid].principalID]))
      && (Acceptable(s, sid, now) && Consults(env, s.principals[s.sessions[sid].principalID]) ==>
            var (u, asked) := RefreshDirectoryPrincipal(env, s, s.principals[s.sessions[sid].principalID], source);
            && t == u && (r.Ok? <==> asked.Ok? && Usable(asked.value)) && (r.Ok? ==> r.value.principal == asked.value)
            && (r.Err? ==> r == Err(if asked.Ok? then Unusable(asked.value) else if asked.error == DirectoryUnavailable then DirectoryUnavailable
                                    else Unauthorized)))
      && (!Acceptable(s, sid, now) ==> r == Err(Unauthorized))
      && (!Acceptable(s, sid, now) && !(sid in s.sessions && !Live(s.sessions[sid].expiresAt, now)) ==> t == s)
      && (sid in s.sessions && !Live(s.sessions[sid].expiresAt, now) ==> t == s.(sessions := s.sessions - {s.sessions[sid].id}))
  {
    hide RefreshDirectoryPrincipal, TrimSpace;
    var sid := TrimSpace(sessionID);
    if Acceptable(s, sid, now) && Consults(env, s.principals[s.sessions[sid].principalID]) {
      var (u, asked) := RefreshDirectoryPrincipal(env, s, s.principals[s.sessions[sid].principalID], source);
      assert ValidateSession(env, s, sessionID, now, source)
          == if asked.Err? then (u, Err(if asked.error.DirectoryUnavailable? then asked.error else Unauthorized)) else (u, CheckedStatus(s.sessions[sid], asked.value));
    }
  }

  /** A refresh asks the directory about the record's own subject. If that fails, so does the refresh; if
      the record is reported, it is what was stored of it; if not, it is disabled and signed out. */
  lemma RefreshExactly(env: Env, s: State, p: Principal, source: Source)
    ensures var (t, r) := RefreshDirectoryPrincipal(env, s, p, source);
      var (u, synced) := SyncDirectoryUser(env, s, source, p.externalID);
      && (synced.Err? ==> t == u && r == Err(synced.error))
      && (synced.Ok? ==> (r.Ok? <==> exists q :: q in synced.value && q.id == p.id))
      && (r.Ok? ==> t == u && r.value in synced.value && r.value.id == p.id)
      && (synced.Ok? && r.Err? && p.id in u.principals ==>
            && t.principals == u.principals[p.id := u.principals[p.id].(status := Status.Disabled)]
            && (forall k :: k in t.sessions <==> k in u.sessions && u.sessions[k].principalID != p.id)
            && (forall k :: k in t.sessions ==> t.sessions[k] == u.sessions[k]))
  {
    hide SyncDirectoryUser;
    var (u, synced) := SyncDirectoryUser(env, s, source, p.externalID);
    if synced.Ok? { FindByIDOk(synced.value, p.id); }
  }

  /** Reports about anyone but the subject asked for are refused, and nothing is stored; reports about it
      are stored one after the other. */
  lemma ReportExactly(env: Env, s: State, source: Source, subject: string)
    ensures var (t, r) := SyncDirectoryUser(env, s, source, subject);
      if TrimSpace(subject) == "" then t == s && r == Err(InvalidInput)
      else if source(subject).Err? then t == s && r == Err(source(subject).error)
      else if exists i :: 0 <= i < |source(subject).value| && source(subject).value[i].user.id != subject then t == s && r == Err(Unauthorized)
      else (t, r) == SyncAll(env, s, source(subject).value)
  {
    hide SyncAll, TrimSpace;
    if source(subject).Ok? {
      var snaps := source(subject).value;
      if i :| 0 <= i < |snaps| && snaps[i].user.id != subject { assert snaps[i] in snaps; }
    }
  }

  /** Snapshots are stored in order up to the first that fails; the results are theirs. */
  lemma SyncAllExactly(env: Env, s: State, snaps: seq<Snapshot>)
    ensures var (t, r) := SyncAll(env, s, snaps);
      && (snaps == [] ==> t == s && r == Ok([]))
      && (snaps != [] ==>
            var (s1, first) := SyncSnapshot(env, s, snaps[0]);
            var (s2, rest) := SyncAll(env, s1, snaps[1..]);
            && (first.Err? ==> t == s1 && r == Err(first.error))
            && (first.Ok? ==> t == s2 && (r.Ok? <==> rest.Ok?) && (r.Err? ==> r.error == rest.error)
                              && (r.Ok? ==> |r.value| == 1 + |rest.value| && r.value[0] == first.value && r.value[1..] == rest.value)))
  {
    hide SyncSnapshot;
  }

  // ----- one directory snapshot -----

  /** What a sync stores: the record's every field, and what it leaves alone. */
  lemma SyncExactly(env: Env, s: State, snap: Snapshot)
    ensures var (t, r) := SyncSnapshot(env, s, snap);
      var id := PrincipalID(env, snap.tenant.id, snap.user.id);
      && (r.Ok? <==> TrimSpace(snap.tenant.id) != "" && TrimSpace(snap.user.id) != ""
                     && (snap.tenant.id in s.tenants && s.tenants[snap.tenant.id].orgName != "" ==> s.tenants[snap.tenant.id].orgName == snap.tenant.orgName))
      && (r.Err? ==> t == s && r == Err(InvalidInput))
      && (r.Ok? ==>
            && id in t.principals && t.principals[id] == r.value
            && r.value.id == id && r.value.tenantID == snap.tenant.id && r.value.externalID == snap.user.id && r.value.kind == User
            && r.value.username == snap.user.username && r.value.email == snap.user.email && r.value.displayName == snap.user.displayName
            && r.value.emailVerified == snap.user.emailVerified
            && r.value.status == (if snap.user.disabled then Status.Disabled
                                  else if id in s.principals && s.principals[id].id != "" then s.principals[id].status
                                  else if s.registration == Open then Active else Pending)
            && SameElsewhere(s.principals, t.principals, id)
            && (forall k :: k in t.sessions <==> k in s.sessions && !(r.value.status == Status.Disabled && s.sessions[k].principalID == id))
            && (forall k :: k in t.sessions ==> t.sessions[k] == s.sessions[k])
            && snap.tenant.id in t.tenants && StoredTenant(s, snap.tenant, t.tenants[snap.tenant.id])
            && SameElsewhere(s.tenants, t.tenants, snap.tenant.id)
            && t == s.(tenants := t.tenants, principals := t.principals, sessions := t.sessions, audits := t.audits))
  {
    hide NormalizedDirectoryRoles, DirectoryTeams, PrincipalID, TrimSpace, SyncAudits;
  }

  /** The reported tenant, active unless it says otherwise, disabled if it was. */
  predicate StoredTenant(s: State, reported: Tenant, stored: Tenant) {
    && stored == reported.(status := stored.status)
    && stored.status == (if reported.id in s.tenants && s.tenants[reported.id].status == Status.Disabled then Status.Disabled
                         else if reported.status == Unset then Active else reported.status)
  }

  lemma {:induction false} DistinctRolesExactly(roles: seq<string>, grant: RoleGrant)
    ensures grant in DistinctRoles(roles) <==>
      grant.scopeType == "" && grant.scopeID == "" && exists raw :: raw in roles && NormalizeRoleKey(raw) == Some(grant.key)
    ensures forall i, j :: 0 <= i < j < |DistinctRoles(roles)| ==> DistinctRoles(roles)[i] != DistinctRoles(roles)[j]
  {
    hide NormalizeRoleKey;
    if roles != [] {
      var n := |roles| - 1;
      DistinctRolesExactly(roles[..n], grant);
      assert roles == roles[..n] + [roles[n]];
      var key := NormalizeRoleKey(roles[n]);
      if key.Some? { DistinctRolesExactly(roles[..n], RoleGrant(key.value, "", "")); }
    }
  }

  /** The roles of a synced record: the known ones that were reported, each once, or the frontend user's. */
  lemma SyncedRoles(env: Env, s: State, snap: Snapshot, grant: RoleGrant)
    requires SyncSnapshot(env, s, snap).1.Ok?
    ensures var roles := SyncSnapshot(env, s, snap).1.value.roles;
      if exists raw :: raw in snap.roles && NormalizeRoleKey(raw).Some? then
        grant in roles <==> grant.scopeType == "" && grant.scopeID == "" && exists raw :: raw in snap.roles && NormalizeRoleKey(raw) == Some(grant.key)
      else roles == [RoleGrant("frontend.user", "", "")]
  {
    hide NormalizeRoleKey, DirectoryTeams, PrincipalID, TrimSpace, SyncAudits;
    DistinctRolesExactly(snap.roles, grant);
    if raw :| raw in snap.roles && NormalizeRoleKey(raw).Some? {
      DistinctRolesExactly(snap.roles, RoleGrant(NormalizeRoleKey(raw).value, "", ""));
    } else {
      if DistinctRoles(snap.roles) != [] { DistinctRolesExactly(snap.roles, DistinctRoles(snap.roles)[0]); }
    }
  }

  /** A team projected from a group: in the tenant, active, under the group's own names and parent. */
  predicate TeamOf(env: Env, tenantID: string, g: Group, team: Team) {
    && team.id == "team" + "_" + env.digest(Encode([tenantID, g.id])) && team.tenantID == tenantID && team.groupID == g.id
    && team.name == g.name && team.displayName == g.displayName && team.status == Active
    && team.parentTeamID == if TrimSpace(g.parentGroupID) == "" then "" else "team" + "_" + env.digest(Encode([tenantID, g.parentGroupID]))
  }

  /** The teams of a synced record: one for each reported group with an identifier, in order. */
  lemma TeamsExactly(env: Env, tenantID: string, groups: seq<Group>)
    ensures var teams := DirectoryTeams(env, tenantID, groups);
      groups != [] ==>
        var n := |groups| - 1;
        var before := DirectoryTeams(env, tenantID, groups[..n]);
        if TrimSpace(groups[n].id) == "" then teams == before
        else |teams| == |before| + 1 && teams[..|before|] == before && TeamOf(env, tenantID, groups[n], teams[|before|])
    ensures groups == [] ==> DirectoryTeams(env, tenantID, groups) == []
  {
    hide TrimSpace, Encode;
  }

  lemma SyncedTeams(env: Env, s: State, snap: Snapshot)
    requires SyncSnapshot(env, s, snap).1.Ok?
    ensures SyncSnapshot(env, s, snap).1.value.teams == DirectoryTeams(env, snap.tenant.id, snap.groups)
  {
    hide TrimSpace, DirectoryTeams, NormalizedDirectoryRoles, SyncAudits, PrincipalID;
  }

  lemma {:induction false} UnknownExactly(roles: seq<string>, name: string)
    ensures name in UnknownDirectoryRoles(roles) <==>
      name != "" && NormalizeRoleKey(name).None? && exists i :: 0 <= i < |roles| && TrimSpace(roles[i]) == name
    ensures forall i, j :: 0 <= i < j < |UnknownDirectoryRoles(roles)| ==> UnknownDirectoryRoles(roles)[i] != UnknownDirectoryRoles(roles)[j]
  {
    hide NormalizeRoleKey, TrimSpace;
    if roles != [] {
      var n := |roles| - 1;
      UnknownExactly(roles[..n], name);
      UnknownExactly(roles[..n], TrimSpace(roles[n]));
      assert roles == roles[..n] + [roles[n]];
    }
  }

  /** The audit trail of a sync: one denial for each reported name that is no role, once each, and then the
      sync itself. */
  lemma SyncRecorded(env: Env, s: State, snap: Snapshot, name: string)
    requires SyncSnapshot(env, s, snap).1.Ok?
    ensures var (t, r) := SyncSnapshot(env, s, snap);
      && |s.audits| < |t.audits| && s.audits <= t.audits
      && t.audits[|t.audits| - 1] == AuditEvent(r.value.tenantID, r.value.kind, r.value.id, "directory.sync", None, "allow", "", None)
      && var denial := AuditEvent(r.value.tenantID, r.value.kind, r.value.id, "directory.unknown_role", Some(Jwt.ResourceRef("role", name)), "deny", "", None);
         (exists i :: |s.audits| <= i < |t.audits| - 1 && t.audits[i] == denial) <==>
           name != "" && NormalizeRoleKey(name).None? && exists i :: 0 <= i < |snap.roles| && TrimSpace(snap.roles[i]) == name
  {
    hide NormalizeRoleKey, TrimSpace, Projected, OrgAllowed, SettledTenant, WithoutSessionsOf;
    var (t, r) := SyncSnapshot(env, s, snap);
    var unknown := UnknownDirectoryRoles(snap.roles);
    UnknownExactly(snap.roles, name);
    var n := |s.audits|;
    assert forall i :: 0 <= i < |unknown| ==> t.audits[n + i] == UnknownRoleAudits(r.value, unknown)[i];
    assert |t.audits| == n + |unknown| + 1;
    if name in unknown {
      var i :| 0 <= i < |unknown| && unknown[i] == name;
      assert t.audits[n + i] == UnknownRoleAudits(r.value, unknown)[i];
    }
    forall i | n <= i < |t.audits| - 1 ensures t.audits[i] == UnknownRoleAudits(r.value, unknown)[i - n] {
      assert t.audits[n + (i - n)] == UnknownRoleAudits(r.value, unknown)[i - n];
    }
  }

  // ----- moving a session -----

  /** A record in the target tenant of the same external user as `p`, not disabled. */
  predicate SameUser(s: State, p: Principal, tenantID: string, id: string) {
    && id in s.principals && s.principals[id].tenantID == tenantID && s.principals[id].status != Status.Disabled
    && s.principals[id].externalID == p.externalID && p.externalID != ""
  }

  /** No team, or an enabled one of the principal in its own tenant. */
  predicate TeamAllowed(p: Principal, teamID: string) {
    teamID == "" || exists i :: 0 <= i < |p.teams| && p.teams[i].id == teamID && p.teams[i].tenantID == p.tenantID && p.teams[i].status != Status.Disabled
  }

  lemma TeamsAgree(p: Principal, teamID: string)
    ensures TeamSelection(p, teamID) == if TeamAllowed(p, TrimSpace(teamID)) then Ok(TrimSpace(teamID)) else Err(Forbidden)
  {
    hide TrimSpace;
  }

  /** A tenant switch: refused without a target or without a record of the same external user there;
      otherwise the session, and nothing else, moves to that user's record. `picked` is a record a walk
      meets, one of the same user if there is any. */
  lemma SwitchExactly(checked: Validated, tenantID: string, teamID: string, picked: string)
    requires checked.1.Ok?
    requires var p := checked.1.value.principal;
      (exists id :: SameUser(checked.0, p, TrimSpace(tenantID), id)) ==> SameUser(checked.0, p, TrimSpace(tenantID), picked)
    ensures var s, v, target := checked.0, checked.1.value, TrimSpace(tenantID);
      var (t, r) := MoveTenant(checked, tenantID, teamID, picked);
      var stays := target == v.session.tenantID;
      var p := if stays || picked !in s.principals then v.principal else s.principals[picked];
      && (target == "" ==> r == Err(InvalidInput))
      && (target != "" && !stays && (forall id :: !SameUser(s, v.principal, target, id)) ==> r == Err(Forbidden))
      && (r.Ok? <==> target != "" && (stays || exists id :: SameUser(s, v.principal, target, id))
                     && TeamAllowed(p, TrimSpace(teamID)) && v.session.id in s.sessions)
      && (r.Err? ==> t == s && r == Err(if target == "" then InvalidInput
                                        else if !stays && (forall id :: !SameUser(s, v.principal, target, id)) then Forbidden
                                        else if !TeamAllowed(p, TrimSpace(teamID)) then Forbidden else NotFound))
      && (r.Ok? ==>
            && r.value == v.session.id && OnlySession(s, t, v.session.id)
            && t.sessions[v.session.id].principalID == p.id && t.sessions[v.session.id].tenantID == p.tenantID
            && t.sessions[v.session.id].currentTeamID == TrimSpace(teamID)
            && t.sessions[v.session.id] == s.sessions[v.session.id].(principalID := p.id, tenantID := p.tenantID, currentTeamID := TrimSpace(teamID))
            && (!stays ==> SameUser(s, v.principal, target, picked)))
  {
    hide TrimSpace, TeamSelection;
    var s, v, target := checked.0, checked.1.value, TrimSpace(tenantID);
    assert target != "" ==> (SwitchCandidate(s, v.principal, target, picked) <==> SameUser(s, v.principal, target, picked));
    TeamsAgree(v.principal, teamID);
    if picked in s.principals { TeamsAgree(s.principals[picked], teamID); }
  }

  /** A team switch changes the team of the session and nothing else. */
  lemma TeamSwitchExactly(checked: Validated, teamID: string)
    requires checked.1.Ok?
    ensures var s, v, team := checked.0, checked.1.value, TrimSpace(teamID);
      var (t, r) := MoveTeam(checked, teamID);
      && (r.Ok? <==> TeamAllowed(v.principal, team) && v.session.id in s.sessions)
      && (r.Err? ==> t == s && r == Err(if TeamAllowed(v.principal, team) then NotFound else Forbidden))
      && (r.Ok? ==> r.value == v.session.id && OnlySession(s, t, v.session.id)
                    && t.sessions[v.session.id] == s.sessions[v.session.id].(principalID := v.principal.id, tenantID := v.session.tenantID, currentTeamID := team))
  {
    hide TrimSpace, TeamSelection;
    TeamsAgree(checked.1.value.principal, teamID);
  }

  // ----- administration -----

  /** A platform or tenant administrator or owner. */
  predicate IsAdmin(roles: seq<RoleGrant>) {
    exists i :: 0 <= i < |roles| &&
      NormalizeRoleKey(roles[i].key) in {Some("platform.owner"), Some("platform.admin"), Some("tenant.owner"), Some("tenant.admin")}
  }

  lemma AdminsAgree(roles: seq<RoleGrant>)
    ensures CanManageServiceAccounts(roles) <==> IsAdmin(roles)
  {
    hide NormalizeRoleKey;
  }

  /** An audit record of the caller's own. */
  predicate Recorded(s: State, t: State, p: Principal, action: string, kind: string, id: string) {
    t.audits == s.audits + [AuditEvent(p.tenantID, p.kind, p.id, action, Some(Jwt.ResourceRef(kind, id)), "allow", "", None)]
  }

  predicate Noted(s: State, t: State, p: Principal, action: string) {
    t.audits == s.audits + [AuditEvent(p.tenantID, p.kind, p.id, action, None, "allow", "", None)]
  }

  /** The four calls: who may, on which records, and all they change. */
  lemma AdministerExactly(checked: Validated, action: AdminAction, id: string)
    requires checked.1.Ok?
    ensures var s, actor := checked.0, checked.1.value.principal;
      var (t, r) := Administer(checked, action, id);
      && (r.Ok? <==> IsAdmin(actor.roles) && TrimSpace(id) != "" && id in s.principals
                     && (action == Approve || action == Reject ==> s.principals[id].status == Pending))
      && (r.Err? ==> t == s && r == Err(if !IsAdmin(actor.roles) then Forbidden else if TrimSpace(id) == "" then InvalidInput
                                        else if id !in s.principals then NotFound else Forbidden))
      && (r.Ok? ==>
            && id in t.principals && t.principals[id] == r.value
            && r.value == s.principals[id].(status := if action == AdminAction.Disable || action == Reject then Status.Disabled else Active)
            && t.principals.Keys == s.principals.Keys && (forall other :: other in s.principals && other != id ==> t.principals[other] == s.principals[other])
            && (forall k :: k in t.sessions <==> k in s.sessions && !((action == AdminAction.Disable || action == Reject) && s.sessions[k].principalID == id))
            && (forall k :: k in t.sessions ==> t.sessions[k] == s.sessions[k])
            && t == s.(principals := t.principals, sessions := t.sessions, audits := t.audits)
            && Recorded(s, t, actor, if action == AdminAction.Disable then "principal.disable" else if action == Enable then "principal.enable"
                                     else if action == Approve then "principal.approve" else "principal.reject", "principal", id))
  {
    hide NormalizeRoleKey, TrimSpace, CanManageServiceAccounts;
    AdminsAgree(checked.1.value.principal.roles);
  }

  // ----- keys -----

  /** The key under a token's hash is stored, active and unexpired, and its holder not disabled. */
  predicate KeyAccepted(s: State, h: string, now: Time) {
    && h in s.apiKeys && s.apiKeys[h].status == KeyActive && Live(s.apiKeys[h].expiresAt, now)
    && s.apiKeys[h].principalID in s.principals && s.principals[s.apiKeys[h].principalID].status != Status.Disabled
  }

  /** Which keys are accepted, for whom, and that only a last use is recorded. `picked` is a key with the
      same identifier that a walk meets. */
  lemma UseKeyExactly(env: Env, s: State, token: string, now: Time, picked: string)
    requires var h := env.keyDigest(TrimSpace(token)); h in s.apiKeys ==> picked in s.apiKeys && s.apiKeys[picked].id == s.apiKeys[h].id
    ensures var (t, r) := ValidateAPIKey(env, s, token, now, picked);
      var h := env.keyDigest(TrimSpace(token));
      && (r.Ok? <==> KeyAccepted(s, h, now))
      && (r.Err? ==> t == s && r == Err(if h in s.apiKeys && s.apiKeys[h].status == KeyActive && Live(s.apiKeys[h].expiresAt, now)
                                           && s.apiKeys[h].principalID in s.principals then AccountDisabled else Unauthorized))
      && (r.Ok? ==>
            && r.value.key == s.apiKeys[h].(lastUsedAt := now) && r.value.principal == s.principals[s.apiKeys[h].principalID]
            && t == s.(apiKeys := t.apiKeys) && t.apiKeys.Keys == s.apiKeys.Keys
            && t.apiKeys[picked] == s.apiKeys[picked].(lastUsedAt := now)
            && forall k :: k in s.apiKeys && k != picked ==> t.apiKeys[k] == s.apiKeys[k])
  {
    hide TrimSpace;
  }

  /** Whatever key the walk meets, no token of a key that is not accepted is, nor is a last use recorded on a
      key with another identifier. */
  lemma UnacceptedKey(env: Env, s: State, token: string, now: Time, picked: string)
    ensures var (t, r) := ValidateAPIKey(env, s, token, now, picked);
      var h := env.keyDigest(TrimSpace(token));
      && (r.Ok? ==> KeyAccepted(s, h, now))
      && (KeyAccepted(s, h, now) && !(picked in s.apiKeys && s.apiKeys[picked].id == s.apiKeys[h].id) ==> t == s && r == Err(NotFound))
  {
    hide TrimSpace;
  }

  /** Revoking: one of the caller's own keys with that identifier, if there is any; nothing else changes.
      `picked` is such a key if there is any. */
  lemma RevokeExactly(checked: Validated, keyID: string, picked: string)
    requires checked.1.Ok?
    requires var s, p := checked.0, checked.1.value.principal;
      (exists h :: h in s.apiKeys && s.apiKeys[h].id == keyID && s.apiKeys[h].principalID == p.id) ==>
        picked in s.apiKeys && s.apiKeys[picked].id == keyID && s.apiKeys[picked].principalID == p.id
    ensures var s, p := checked.0, checked.1.value.principal;
      var (t, r) := RevokeAPIKey(checked, keyID, picked);
      && (r.Ok? <==> TrimSpace(keyID) != "" && exists h :: h in s.apiKeys && s.apiKeys[h].id == keyID && s.apiKeys[h].principalID == p.id)
      && (r.Err? ==> t == s && r == Err(if TrimSpace(keyID) == "" then InvalidInput else Forbidden))
      && (r.Ok? ==>
            && t.apiKeys == s.apiKeys[picked := s.apiKeys[picked].(status := KeyRevoked)]
            && t == s.(apiKeys := t.apiKeys, audits := t.audits) && Recorded(s, t, p, "api_key.revoke", "api_key", keyID))
  {
    hide TrimSpace;
  }

  /** The scope is one of the listed ones, trimmed, and not blank. */
  predicate Among(held: seq<string>, scope: string) {
    scope != "" && exists sc :: sc in held && TrimSpace(sc) == scope
  }

  /** Every scope of a new key is one that its maker's roles carry. */
  ghost predicate Carried(policy: Policy, roles: seq<RoleGrant>, scopes: seq<string>) {
    forall i :: 0 <= i < |scopes| ==> Among(ScopesForRoles(policy, roles), scopes[i])
  }

  lemma ScopesAgree(policy: Policy, roles: seq<RoleGrant>, scopes: seq<string>)
    ensures ScopesHeld(policy, roles, scopes) <==> Carried(policy, roles, scopes)
  {
    hide TrimSpace, ScopesForRoles;
    var held := ScopesForRoles(policy, roles);
    forall x ensures x in SliceSet(held) <==> Among(held, x) {
    }
    forall x | x in Elements(scopes) && Carried(policy, roles, scopes) ensures x in SliceSet(held) {
      var i :| 0 <= i < |scopes| && scopes[i] == x;
    }
    assert forall i :: 0 <= i < |scopes| ==> scopes[i] in Elements(scopes);
  }

  /** A key of one's own: only with carried scopes, in the session's tenant, for the caller. */
  lemma MakeKeyExactly(env: Env, checked: Validated, name: string, scopes: seq<string>, expiresAt: Time, now: Time, random: KeyRandom)
    requires checked.1.Ok?
    ensures var s, v := checked.0, checked.1.value;
      var (t, r) := CreateAPIKey(env, checked, name, scopes, expiresAt, now, random);
      && (r.Ok? <==> Carried(s.policy, v.principal.roles, scopes))
      && (r.Err? ==> t == s && r == Err(Forbidden))
      && (r.Ok? ==>
            && r.value.tenantID == v.session.tenantID && r.value.principalID == v.principal.id && r.value.principalKind == v.principal.kind
            && r.value.keyHash == env.keyDigest(TrimSpace(random.token)) && r.value.scopes == scopes && r.value.expiresAt == expiresAt
            && r.value.status == KeyActive && r.value.createdAt == now && r.value.name == TrimSpace(name)
            && r.value.id == "key_" + random.keyID && r.value.lastUsedAt == ZERO_TIME
            && t.apiKeys == s.apiKeys[r.value.keyHash := r.value] && t == s.(apiKeys := t.apiKeys, audits := t.audits)
            && Noted(s, t, v.principal, "api_key.create"))
  {
    hide TrimSpace, ScopesHeld;
    ScopesAgree(checked.0.policy, checked.1.value.principal.roles, scopes);
  }

  /** A service account with its key: only by an administrator, with a name, with carried scopes. */
  lemma MakeAccountExactly(env: Env, checked: Validated, name: string, scopes: seq<string>, expiresAt: Time, now: Time, random: KeyRandom)
    requires checked.1.Ok?
    ensures var s, v := checked.0, checked.1.value;
      var (t, r) := CreateServiceAccountToken(env, checked, name, scopes, expiresAt, now, random);
      && (r.Ok? <==> IsAdmin(v.principal.roles) && TrimSpace(name) != "" && Carried(s.policy, v.principal.roles, scopes))
      && (r.Err? ==> t == s && r == Err(if IsAdmin(v.principal.roles) && TrimSpace(name) == "" then InvalidInput else Forbidden))
      && (r.Ok? ==>
            var id := "svc_" + random.accountID;
            && r.value.tenantID == v.session.tenantID && r.value.principalID == id && r.value.principalKind == ServiceAccount
            && r.value.keyHash == env.keyDigest(TrimSpace(random.token)) && r.value.scopes == scopes && r.value.expiresAt == expiresAt
            && r.value.status == KeyActive && r.value.createdAt == now && r.value.id == "key_" + random.keyID && r.value.lastUsedAt == ZERO_TIME
            && t.apiKeys == s.apiKeys[r.value.keyHash := r.value]
            && t.principals == s.principals[id := t.principals[id]] && t.accounts == s.accounts[id := t.accounts[id]]
            && AccountFor(t, id, v.session.tenantID, TrimSpace(name)) && t.accounts[id].createdBy == v.principal.id && t.accounts[id].createdAt == now
            && t == s.(apiKeys := t.apiKeys, principals := t.principals, accounts := t.accounts, audits := t.audits)
            && Recorded(s, t, v.principal, "service_account.create_token", "service_account", id))
  {
    hide TrimSpace, ScopesHeld, NormalizeRoleKey, CanManageServiceAccounts;
    AdminsAgree(checked.1.value.principal.roles);
    ScopesAgree(checked.0.policy, checked.1.value.principal.roles, scopes);
  }

  /** An active service account and its principal, a tenant administrator, of that tenant and name. */
  predicate AccountFor(t: State, id: string, tenantID: string, name: string) {
    && id in t.principals && t.principals[id].id == id && t.principals[id].tenantID == tenantID && t.principals[id].kind == ServiceAccount
    && t.principals[id].status == Active && t.principals[id].username == name && t.principals[id].displayName == name
    && t.principals[id].roles == [RoleGrant("tenant.admin", "", "")] && t.principals[id].externalID == "" && t.principals[id].teams == []
    && id in t.accounts && t.accounts[id].id == id && t.accounts[id].tenantID == tenantID && t.accounts[id].name == name && t.accounts[id].status == Active
  }

  /** Disabling a service account: only by an administrator, only of the caller's tenant; the principal
      too if it is there. */
  lemma DropAccountExactly(checked: Validated, id: string)
    requires checked.1.Ok?
    ensures var s, v := checked.0, checked.1.value;
      var (t, r) := DisableServiceAccount(checked, id);
      && (r.Ok? <==> IsAdmin(v.principal.roles) && TrimSpace(id) != "" && id in s.accounts && s.accounts[id].tenantID == v.session.tenantID)
      && (r.Err? ==> t == s && r == Err(if IsAdmin(v.principal.roles) && TrimSpace(id) == "" then InvalidInput else Forbidden))
      && (r.Ok? ==>
            && t.accounts == s.accounts[id := s.accounts[id].(status := Status.Disabled)]
            && t.principals.Keys == s.principals.Keys && (forall k :: k in s.principals && k != id ==> t.principals[k] == s.principals[k])
            && (id in s.principals ==> t.principals[id] == if s.principals[id].tenantID == v.session.tenantID
                                                           then s.principals[id].(status := Status.Disabled) else s.principals[id])
            && t == s.(accounts := t.accounts, principals := t.principals, audits := t.audits)
            && Recorded(s, t, v.principal, "service_account.disable", "service_account", id))
  {
    hide TrimSpace, NormalizeRoleKey, CanManageServiceAccounts;
    AdminsAgree(checked.1.value.principal.roles);
  }

  // ----- device codes -----

  const MINUTES_15: Duration := 900_000_000_000
  const DAYS_30: Duration := 2_592_000_000_000_000

  /** A device code lives fifteen minutes; only a pending, unexpired one is approved, for the caller; only
      an approved, unexpired one yields a key, of its approver, with that principal's scopes, for thirty
      days, and is then consumed. */
  lemma StartExactly(s: State, now: Time, code: string, userCode: string)
    ensures var t := StartDeviceAuth(s, now, code, userCode);
      && t.deviceCodes == s.deviceCodes[code := t.deviceCodes[code]] && t == s.(deviceCodes := t.deviceCodes)
      && code in t.deviceCodes && t.deviceCodes[code].deviceCode == code && t.deviceCodes[code].userCode == userCode
      && t.deviceCodes[code].status == DevicePending && t.deviceCodes[code].principalID == ""
      && t.deviceCodes[code].createdAt == now && t.deviceCodes[code].expiresAt == now + MINUTES_15
  {
  }

  lemma ApproveExactly(checked: Validated, rawCode: string, now: Time, picked: string)
    requires checked.1.Ok? && CodesKeyed(checked.0.deviceCodes)
    requires var s, code := checked.0, ToUpper(TrimSpace(rawCode));
      (exists c :: c in s.deviceCodes && s.deviceCodes[c].userCode == code) ==> picked in s.deviceCodes && s.deviceCodes[picked].userCode == code
    ensures var s, v, code := checked.0, checked.1.value, ToUpper(TrimSpace(rawCode));
      var (t, r) := ApproveDeviceAuth(checked, rawCode, now, picked);
      && (r.Ok? <==> code != "" && (exists c :: c in s.deviceCodes && s.deviceCodes[c].userCode == code)
                     && s.deviceCodes[picked].status == DevicePending && Live(s.deviceCodes[picked].expiresAt, now))
      && (r.Err? ==> t == s && r == Err(if code == "" then InvalidInput
                                        else if (exists c :: c in s.deviceCodes && s.deviceCodes[c].userCode == code) && Live(s.deviceCodes[picked].expiresAt, now)
                                        then Forbidden else Unauthorized))
      && (r.Ok? ==>
            && r.value == v.principal
            && t.deviceCodes == s.deviceCodes[picked := s.deviceCodes[picked].(status := DeviceApproved, principalID := v.principal.id)]
            && t == s.(deviceCodes := t.deviceCodes, audits := t.audits) && Noted(s, t, v.principal, "device.approve"))
  {
    hide TrimSpace, ToUpper;
  }

  lemma ExchangeExactly(env: Env, s: State, rawCode: string, now: Time, random: KeyRandom)
    requires CodesKeyed(s.deviceCodes)
    ensures var (t, r) := ExchangeDeviceToken(env, s, rawCode, now, random);
      var code := TrimSpace(rawCode);
      && (r.Ok? <==> code != "" && code in s.deviceCodes && s.deviceCodes[code].status == DeviceApproved && Live(s.deviceCodes[code].expiresAt, now)
                     && s.deviceCodes[code].principalID in s.principals
                     && s.principals[s.deviceCodes[code].principalID].status != Status.Disabled)
      && (r.Err? ==> t == s && r == Err(if code == "" then InvalidInput
                                        else if code !in s.deviceCodes || !Live(s.deviceCodes[code].expiresAt, now) then Unauthorized
                                        else if s.deviceCodes[code].status == DevicePending then AuthorizationPending
                                        else if s.deviceCodes[code].status == DeviceApproved && s.deviceCodes[code].principalID in s.principals
                                        then AccountDisabled else Unauthorized))
      && (r.Ok? ==>
            var p := s.principals[s.deviceCodes[code].principalID];
            && r.value.tenantID == p.tenantID && r.value.principalID == p.id && r.value.principalKind == p.kind
            && r.value.keyHash == env.keyDigest(TrimSpace(random.token)) && r.value.scopes == ScopesForRoles(s.policy, p.roles)
            && r.value.status == KeyActive && r.value.createdAt == now && r.value.expiresAt == now + DAYS_30
            && t.apiKeys == s.apiKeys[r.value.keyHash := r.value]
            && t.deviceCodes == s.deviceCodes[code := s.deviceCodes[code].(status := DeviceConsumed)]
            && r.value.id == "key_" + random.keyID && r.value.name == "" && r.value.lastUsedAt == ZERO_TIME
            && t == s.(apiKeys := t.apiKeys, deviceCodes := t.deviceCodes, audits := t.audits) && Noted(s, t, p, "device.token"))
  {
    hide TrimSpace, ScopesForRoles;
    var code := TrimSpace(rawCode);
    assert code in s.deviceCodes ==> s.deviceCodes[code].deviceCode == code;
  }
}
