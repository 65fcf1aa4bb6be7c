/** The identity state of a Warden service and the effect of each service call on it, as functions
    from state to state and result. The classes in Service.dfy and MemoryStore.dfy are proved against them;
    Runs.dfy and Reconcile.dfy prove what holds of them.

    A call is atomic. Random strings, the clock and the choice a Go map iteration makes are
    arguments. */
module Iam {
  import opened Text
  import opened Calendar
  import opened Policies
  import Jwt = InternalJwt

  // ----- entities -----

  datatype Status = Unset | Active | Pending | Disabled | OtherStatus(text: string)
  datatype Kind = User | ServiceAccount | Agent | OtherKind(text: string)

  datatype Tenant = Tenant(id: string, orgName: string, slug: string, displayName: string, status: Status)
  datatype Team = Team(id: string, tenantID: string, groupID: string, name: string, displayName: string,
                       parentTeamID: string, status: Status)
  datatype Principal = Principal(id: string, tenantID: string, externalID: string, username: string, email: string,
                                 displayName: string, kind: Kind, status: Status, emailVerified: bool,
                                 roles: seq<RoleGrant>, teams: seq<Team>)
  datatype Session = Session(id: string, principalID: string, tenantID: string, currentTeamID: string,
                             authTime: Time, expiresAt: Time, source: string)
  datatype KeyStatus = KeyActive | KeyRevoked
  datatype APIKey = APIKey(id: string, name: string, tenantID: string, principalKind: Kind, principalID: string,
                           keyHash: string, scopes: seq<string>, expiresAt: Time, status: KeyStatus,
                           createdAt: Time, lastUsedAt: Time)
  datatype Account = Account(id: string, tenantID: string, name: string, status: Status, createdBy: string, createdAt: Time)
  datatype AgentRun = AgentRun(id: string, tenantID: string, actorID: string, agentID: string, createdAt: Time)
  datatype DeviceStatus = DevicePending | DeviceApproved | DeviceConsumed
  datatype DeviceCode = DeviceCode(deviceCode: string, userCode: string, principalID: string, expiresAt: Time,
                                   status: DeviceStatus, createdAt: Time)
  datatype AuditEvent = AuditEvent(tenantID: string, kind: Kind, principalID: string, action: string,
                                   resource: Option<Jwt.ResourceRef>, decision: string, jwtID: string,
                                   actor: Option<Jwt.ActorRef>)

  /** A directory account, its groups and its roles, projected onto one tenant. */
  datatype DirectoryUser = DirectoryUser(id: string, username: string, email: string, displayName: string,
                                         emailVerified: bool, disabled: bool)
  datatype Group = Group(id: string, name: string, displayName: string, parentGroupID: string)
  datatype Snapshot = Snapshot(tenant: Tenant, user: DirectoryUser, groups: seq<Group>, roles: seq<string>)

  datatype Error = NotFound | AccountDisabled | Unauthorized | Forbidden | InvalidInput
                 | AuthorizationPending | DirectoryUnavailable | SignFailed(cause: Jwt.JwtError)

  /** A directory source: the snapshots it reports for an external subject. */
  type Source = string -> Result<seq<Snapshot>, Error>

  datatype Registration = Open | ApprovalRequired | Closed

  datatype State = State(
    tenants: map<string, Tenant>,
    principals: map<string, Principal>,
    sessions: map<string, Session>,
    apiKeys: map<string, APIKey>,
    deviceCodes: map<string, DeviceCode>,
    accounts: map<string, Account>,
    agentRuns: map<string, AgentRun>,
    audits: seq<AuditEvent>,
    policy: Policy,
    registration: Registration)

  /** What does not change while a service runs. `digest` stands for the hex of the first 12 bytes of
      SHA-256, `keyDigest` for the hex of all of it. */
  datatype Env = Env(
    digest: string -> string, keyDigest: string -> string,
    sessionTTL: Duration, internalTTL: Duration, agentTTL: Duration,
    refreshOnSession: bool, policyVersion: string,
    codec: Jwt.Codec, signer: Jwt.Signer)

  datatype Issued = Issued(token: string, claims: Jwt.Claims)

  const EMPTY_STORE: State :=
    State(map[], map[], map[], map[], map[], map[], map[], [], Policy(map[]), Open)

  function KindName(kind: Kind): string {
    match kind
    case User => "user"
    case ServiceAccount => "service_account"
    case Agent => "agent"
    case OtherKind(text) => text
  }

  // ----- configuration -----

  datatype Config = Config(issuer: string, secret: string, internalTTL: Duration, agentTTL: Duration, sessionTTL: Duration,
                           refreshOnSession: bool, policyVersion: string)

  /** The lifetimes `NewService` settles on: (internal, agent, session). */
  function SettledTTLs(internal: Duration, agent: Duration, session: Duration): (Duration, Duration, Duration) {
    var i := if internal <= 0 then 5 * MINUTE else internal;
    var a := if agent <= 0 || agent > i then (if i / 2 <= 0 then MINUTE else i / 2) else agent;
    (i, a, if session <= 0 then 24 * 60 * MINUTE else session)
  }

  /** `NewService`, for a normalized master secret. */
  function NewService(cfg: Config, digest: string -> string, keyDigest: string -> string, codec: Jwt.Codec): Result<Env, Jwt.JwtError> {
    var (internal, agent, session) := SettledTTLs(cfg.internalTTL, cfg.agentTTL, cfg.sessionTTL);
    var signer := Jwt.NewSigner(if Blank(cfg.issuer) then "warden" else cfg.issuer, cfg.secret, internal);
    if signer.Err? then Err(signer.error)
    else Ok(Env(digest, keyDigest, session, internal, agent, cfg.refreshOnSession, TrimSpace(cfg.policyVersion), codec, signer.value))
  }

  // ----- projected identifiers -----

  /** The hash input: each part trimmed and terminated by a NUL. */
  function Encode(parts: seq<string>): string {
    if parts == [] then "" else TrimSpace(parts[0]) + [NUL] + Encode(parts[1..])
  }

  function StableProjectionID(digest: string -> string, prefix: string, parts: seq<string>): string {
    prefix + "_" + digest(Encode(parts))
  }

  const PRINCIPAL_PREFIX := "principal_"
  const SERVICE_PREFIX := "svc_"
  const AGENT_PREFIX := "agent_"

  function PrincipalID(env: Env, tenantID: string, subject: string): string {
    StableProjectionID(env.digest, "principal", [tenantID, subject])
  }

  function ServiceID(env: Env, tenantID: string, subject: string): string {
    StableProjectionID(env.digest, "svc", [tenantID, subject])
  }

  function HashAPIKey(env: Env, token: string): string {
    env.keyDigest(TrimSpace(token))
  }

  // ----- audit -----

  function AuditedBy(s: State, p: Principal, action: string, resource: Option<Jwt.ResourceRef>, decision: string,
                     jwtID: string, actor: Option<Jwt.ActorRef>): State {
    s.(audits := s.audits + [AuditEvent(p.tenantID, p.kind, p.id, action, resource, decision, jwtID, actor)])
  }

  function Audited(s: State, p: Principal, action: string, resource: Option<Jwt.ResourceRef>, decision: string): State {
    AuditedBy(s, p, action, resource, decision, "", None)
  }

  // ----- directory projection -----

  /** The canonical keys of the known roles, first occurrence first. */
  function DistinctRoles(roles: seq<string>): seq<RoleGrant> {
    if roles == [] then []
    else
      var prior := DistinctRoles(roles[..|roles| - 1]);
      var key := NormalizeRoleKey(roles[|roles| - 1]);
      if key.None? || RoleGrant(key.value, "", "") in prior then prior
      else prior + [RoleGrant(key.value, "", "")]
  }

  function NormalizedDirectoryRoles(roles: seq<string>): seq<RoleGrant> {
    var known := DistinctRoles(roles);
    if known == [] then [RoleGrant(ROLE_FRONTEND_USER, "", "")] else known
  }

  function UnknownDirectoryRoles(roles: seq<string>): seq<string> {
    if roles == [] then []
    else
      var prior := UnknownDirectoryRoles(roles[..|roles| - 1]);
      var name := TrimSpace(roles[|roles| - 1]);
      if name == "" || NormalizeRoleKey(name).Some? || name in prior then prior else prior + [name]
  }

  function DirectoryTeam(env: Env, tenantID: string, g: Group): Team {
    Team(StableProjectionID(env.digest, "team", [tenantID, g.id]), tenantID, g.id, g.name, g.displayName,
         if Blank(g.parentGroupID) then "" else StableProjectionID(env.digest, "team", [tenantID, g.parentGroupID]),
         Active)
  }

  function DirectoryTeams(env: Env, tenantID: string, groups: seq<Group>): seq<Team>
    decreases |groups|
  {
    if groups == [] then []
    else
      var prior := DirectoryTeams(env, tenantID, groups[..|groups| - 1]);
      var g := groups[|groups| - 1];
      if Blank(g.id) then prior else prior + [DirectoryTeam(env, tenantID, g)]
  }

  /** The tenant record a sync stores: a disabled tenant stays disabled. */
  function SettledTenant(tenants: map<string, Tenant>, tenant: Tenant): Tenant {
    if tenant.id in tenants && tenants[tenant.id].status.Disabled? then tenant.(status := Disabled)
    else if tenant.status.Unset? then tenant.(status := Active)
    else tenant
  }

  /** An existing tenant cannot change the organization it is mapped from. */
  predicate OrgAllowed(tenants: map<string, Tenant>, tenant: Tenant) {
    tenant.id in tenants && tenants[tenant.id].orgName != "" ==> tenants[tenant.id].orgName == tenant.orgName
  }

  function ProjectedStatus(principals: map<string, Principal>, registration: Registration, id: string, disabled: bool): Status {
    if disabled then Disabled
    else if id in principals && principals[id].id != "" then principals[id].status
    else if registration.Open? then Active
    else Pending
  }

  /** The principal record that a snapshot projects to. */
  function Projected(env: Env, principals: map<string, Principal>, registration: Registration, snap: Snapshot): Principal {
    var id := PrincipalID(env, snap.tenant.id, snap.user.id);
    Principal(id, snap.tenant.id, snap.user.id, snap.user.username, snap.user.email, snap.user.displayName, User,
              ProjectedStatus(principals, registration, id, snap.user.disabled), snap.user.emailVerified,
              NormalizedDirectoryRoles(snap.roles), DirectoryTeams(env, snap.tenant.id, snap.groups))
  }

  function WithoutSessionsOf(sessions: map<string, Session>, principalID: string): map<string, Session> {
    map k | k in sessions && sessions[k].principalID != principalID :: sessions[k]
  }

  function UnknownRoleAudits(p: Principal, unknown: seq<string>): seq<AuditEvent> {
    seq(|unknown|, i requires 0 <= i < |unknown| =>
      AuditEvent(p.tenantID, p.kind, p.id, "directory.unknown_role", Some(Jwt.ResourceRef("role", unknown[i])), "deny", "", None))
  }

  /** The audit trail of a sync. */
  function SyncAudits(p: Principal, roles: seq<string>): seq<AuditEvent> {
    UnknownRoleAudits(p, UnknownDirectoryRoles(roles))
      + [AuditEvent(p.tenantID, p.kind, p.id, "directory.sync", None, "allow", "", None)]
  }

  function SyncSnapshot(env: Env, s: State, snap: Snapshot): (State, Result<Principal, Error>) {
    if Blank(snap.tenant.id) || Blank(snap.user.id) || !OrgAllowed(s.tenants, snap.tenant) then (s, Err(InvalidInput))
    else
      var p := Projected(env, s.principals, s.registration, snap);
      (s.(tenants := s.tenants[snap.tenant.id := SettledTenant(s.tenants, snap.tenant)],
          principals := s.principals[p.id := p],
          sessions := if p.status.Disabled? then WithoutSessionsOf(s.sessions, p.id) else s.sessions,
          audits := s.audits + SyncAudits(p, snap.roles)),
       Ok(p))
  }

  /** Syncs snapshots in order and stops at the first failure, keeping what was already stored. */
  function SyncAll(env: Env, s: State, snaps: seq<Snapshot>): (State, Result<seq<Principal>, Error>)
    decreases |snaps|
  {
    if snaps == [] then (s, Ok([]))
    else
      var (s1, r) := SyncSnapshot(env, s, snaps[0]);
      if r.Err? then (s1, Err(r.error))
      else
        var (s2, rest) := SyncAll(env, s1, snaps[1..]);
        (s2, if rest.Err? then rest else Ok([r.value] + rest.value))
  }

  /** A report about anyone else than the subject asked for is refused as a whole. */
  function SyncReport(env: Env, s: State, reported: Result<seq<Snapshot>, Error>, subject: string): (State, Result<seq<Principal>, Error>) {
    if reported.Err? then (s, Err(reported.error))
    else if exists snap :: snap in reported.value && snap.user.id != subject then (s, Err(Unauthorized))
    else SyncAll(env, s, reported.value)
  }

  function SyncDirectoryUser(env: Env, s: State, source: Source, subject: string): (State, Result<seq<Principal>, Error>) {
    if Blank(subject) then (s, Err(InvalidInput)) else SyncReport(env, s, source(subject), subject)
  }

  /** The state after an administrator, or the directory, disables a principal. */
  function Revoked(s: State, principalID: string): State
    requires principalID in s.principals
  {
    s.(principals := s.principals[principalID := s.principals[principalID].(status := Disabled)],
       sessions := WithoutSessionsOf(s.sessions, principalID))
  }

  function RevokeDirectoryPrincipal(s: State, p: Principal): (State, Error) {
    if p.id !in s.principals then (s, NotFound)
    else (Audited(Revoked(s, p.id), p, "directory.membership_revoked", None, "deny"), Unauthorized)
  }

  function FindByID(ps: seq<Principal>, id: string): Option<Principal> {
    if ps == [] then None else if ps[0].id == id then Some(ps[0]) else FindByID(ps[1..], id)
  }

  function RefreshDirectoryPrincipal(env: Env, s: State, p: Principal, source: Source): (State, Result<Principal, Error>) {
    var (s1, synced) := SyncDirectoryUser(env, s, source, p.externalID);
    if synced.Err? then (s1, Err(synced.error))
    else
      var found := FindByID(synced.value, p.id);
      if found.Some? then (s1, Ok(found.value))
      else
        var (s2, e) := RevokeDirectoryPrincipal(s1, p);
        (s2, Err(e))
  }

  // ----- sessions -----

  predicate Expired(expiresAt: Time, now: Time) {
    expiresAt != ZERO_TIME && now >= expiresAt
  }

  function CreateSession(env: Env, s: State, principalID: string, now: Time, random: string): (State, Result<Session, Error>) {
    if principalID !in s.principals then (s, Err(NotFound))
    else
      var p := s.principals[principalID];
      if p.tenantID !in s.tenants then (s, Err(NotFound))
      else if s.tenants[p.tenantID].status.Disabled? || p.status.Disabled? then (s, Err(AccountDisabled))
      else if p.status.Pending? then (s, Err(AuthorizationPending))
      else
        var session := Session("sess_" + random, p.id, p.tenantID, "", now, now + env.sessionTTL, "web_session");
        (s.(sessions := s.sessions[session.id := session]), Ok(session))
  }

  datatype Valid = Valid(session: Session, principal: Principal)

  function CheckedStatus(session: Session, p: Principal): Result<Valid, Error> {
    if p.status.Disabled? then Err(AccountDisabled)
    else if p.status.Pending? then Err(AuthorizationPending)
    else Ok(Valid(session, p))
  }

  function ValidateSession(env: Env, s: State, sessionID: string, now: Time, source: Source): (State, Result<Valid, Error>) {
    var sid := TrimSpace(sessionID);
    if sid !in s.sessions then (s, Err(Unauthorized))
    else
      var session := s.sessions[sid];
      if Expired(session.expiresAt, now) then (s.(sessions := s.sessions - {session.id}), Err(Unauthorized))
      else if session.tenantID !in s.tenants || s.tenants[session.tenantID].status.Disabled? then (s, Err(Unauthorized))
      else if session.principalID !in s.principals then (s, Err(Unauthorized))
      else
        var p := s.principals[session.principalID];
        if p.tenantID != session.tenantID then (s, Err(Unauthorized))
        else if env.refreshOnSession && p.externalID != "" then
          var (s1, r) := RefreshDirectoryPrincipal(env, s, p, source);
          if r.Err? then (s1, Err(if r.error.DirectoryUnavailable? then r.error else Unauthorized))
          else (s1, CheckedStatus(session, r.value))
        else (s, CheckedStatus(session, p))
  }

  function UpdateSessionContext(s: State, sessionID: string, principalID: string, tenantID: string, teamID: string): State
    requires sessionID in s.sessions
  {
    s.(sessions := s.sessions[sessionID :=
      s.sessions[sessionID].(principalID := principalID, tenantID := tenantID, currentTeamID := teamID)])
  }

  function TeamSelection(p: Principal, teamID: string): Result<string, Error> {
    var team := TrimSpace(teamID);
    if team == "" || (exists t :: t in p.teams && t.id == team && t.tenantID == p.tenantID && !t.status.Disabled?)
    then Ok(team) else Err(Forbidden)
  }

  /** A principal of the same external user that a session may move to. */
  predicate SwitchCandidate(s: State, p: Principal, tenantID: string, id: string) {
    id in s.principals && p.externalID != "" && s.principals[id].externalID == p.externalID
    && s.principals[id].tenantID == tenantID && !s.principals[id].status.Disabled?
  }

  /** A walk over the principals finds a candidate if there is one. */
  ghost predicate PicksCandidate(s: State, p: Principal, tenantID: string, picked: string) {
    (exists id :: SwitchCandidate(s, p, tenantID, id)) ==> SwitchCandidate(s, p, tenantID, picked)
  }

  // A handler runs on the outcome of the validation it begins with: the state that validation left
  // and its result.
  type Validated = (State, Result<Valid, Error>)
  type ValidatedKey = (State, Result<ValidKey, Error>)

  /** Moves a session to another tenant's principal of the same user; the result is the session.
      `picked` is the candidate that the map iteration meets first. */
  function MoveTenant(checked: Validated, tenantID: string, teamID: string, picked: string): (State, Result<string, Error>) {
    var (s, r) := checked;
    var target := TrimSpace(tenantID);
    if r.Err? then (s, Err(r.error))
    else if target == "" then (s, Err(InvalidInput))
    else
      var v := r.value;
      if target != v.session.tenantID && !SwitchCandidate(s, v.principal, target, picked) then (s, Err(Forbidden))
      else
        var p := if target == v.session.tenantID then v.principal else s.principals[picked];
        var team := TeamSelection(p, teamID);
        if team.Err? then (s, Err(team.error))
        else if v.session.id !in s.sessions then (s, Err(NotFound))
        else (UpdateSessionContext(s, v.session.id, p.id, p.tenantID, team.value), Ok(v.session.id))
  }

  function MoveTeam(checked: Validated, teamID: string): (State, Result<string, Error>) {
    var (s, r) := checked;
    if r.Err? then (s, Err(r.error))
    else
      var v := r.value;
      var team := TeamSelection(v.principal, teamID);
      if team.Err? then (s, Err(team.error))
      else if v.session.id !in s.sessions then (s, Err(NotFound))
      else (UpdateSessionContext(s, v.session.id, v.principal.id, v.session.tenantID, team.value), Ok(v.session.id))
  }

  /** A switch ends by validating the moved session. */
  function Moved(env: Env, moved: (State, Result<string, Error>), now: Time, after: Source): Validated {
    if moved.1.Err? then (moved.0, Err(moved.1.error)) else ValidateSession(env, moved.0, moved.1.value, now, after)
  }

  // ----- principal administration -----

  datatype AdminAction = Disable | Enable | Approve | Reject

  function AdminAudit(a: AdminAction): string {
    match a
    case Disable => "principal.disable"
    case Enable => "principal.enable"
    case Approve => "principal.approve"
    case Reject => "principal.reject"
  }

  function Administer(checked: Validated, action: AdminAction, principalID: string): (State, Result<Principal, Error>) {
    var (s1, r) := checked;
    if r.Err? then (s1, Err(r.error))
    else
      var actor := r.value.principal;
      if !CanManageServiceAccounts(actor.roles) then (s1, Err(Forbidden))
      else if Blank(principalID) then (s1, Err(InvalidInput))
      else if principalID !in s1.principals then (s1, Err(NotFound))
      else if (action.Approve? || action.Reject?) && !s1.principals[principalID].status.Pending? then (s1, Err(Forbidden))
      else
        var s2 := if action.Disable? || action.Reject? then Revoked(s1, principalID)
                  else s1.(principals := s1.principals[principalID := s1.principals[principalID].(status := Active)]);
        (Audited(s2, actor, AdminAudit(action), Some(Jwt.ResourceRef("principal", principalID)), "allow"),
         Ok(s2.principals[principalID]))
  }

  // ----- API keys and service accounts -----

  ghost predicate ScopesHeld(policy: Policy, roles: seq<RoleGrant>, scopes: seq<string>) {
    Elements(scopes) <= SliceSet(ScopesForRoles(policy, roles))
  }

  datatype KeyRandom = KeyRandom(token: string, keyID: string, accountID: string)

  ghost function CreateAPIKey(env: Env, checked: Validated, name: string, scopes: seq<string>, expiresAt: Time, now: Time, random: KeyRandom)
    : (State, Result<APIKey, Error>) {
    var (s1, r) := checked;
    if r.Err? then (s1, Err(r.error))
    else if !ScopesHeld(s1.policy, r.value.principal.roles, scopes) then (s1, Err(Forbidden))
    else
      var p := r.value.principal;
      var key := APIKey("key_" + random.keyID, TrimSpace(name), r.value.session.tenantID, p.kind, p.id,
                        HashAPIKey(env, random.token), scopes, expiresAt, KeyActive, now, ZERO_TIME);
      (Audited(s1.(apiKeys := s1.apiKeys[key.keyHash := key]), p, "api_key.create", None, "allow"), Ok(key))
  }

  function ServicePrincipal(id: string, tenantID: string, externalID: string, username: string, displayName: string): Principal {
    Principal(id, tenantID, externalID, username, "", displayName, ServiceAccount, Active, false,
              [RoleGrant(ROLE_TENANT_ADMIN, "", "")], [])
  }

  ghost function CreateServiceAccountToken(env: Env, checked: Validated, name: string, scopes: seq<string>, expiresAt: Time, now: Time,
                                           random: KeyRandom): (State, Result<APIKey, Error>) {
    var (s1, r) := checked;
    if r.Err? then (s1, Err(r.error))
    else
      var creator, tenantID := r.value.principal, r.value.session.tenantID;
      if !CanManageServiceAccounts(creator.roles) then (s1, Err(Forbidden))
      else if Blank(name) then (s1, Err(InvalidInput))
      else if !ScopesHeld(s1.policy, creator.roles, scopes) then (s1, Err(Forbidden))
      else
        var id := SERVICE_PREFIX + random.accountID;
        var key := APIKey("key_" + random.keyID, "", tenantID, ServiceAccount, id,
                          HashAPIKey(env, random.token), scopes, expiresAt, KeyActive, now, ZERO_TIME);
        (Audited(s1.(principals := s1.principals[id := ServicePrincipal(id, tenantID, "", TrimSpace(name), TrimSpace(name))],
                     accounts := s1.accounts[id := Account(id, tenantID, TrimSpace(name), Active, creator.id, now)],
                     apiKeys := s1.apiKeys[key.keyHash := key]),
                 creator, "service_account.create_token", Some(Jwt.ResourceRef("service_account", id)), "allow"),
         Ok(key))
  }

  function DisableServiceAccount(checked: Validated, accountID: string): (State, Result<(), Error>) {
    var (s1, r) := checked;
    if r.Err? then (s1, Err(r.error))
    else if !CanManageServiceAccounts(r.value.principal.roles) then (s1, Err(Forbidden))
    else if Blank(accountID) then (s1, Err(InvalidInput))
    else
      var tenantID := r.value.session.tenantID;
      if accountID !in s1.accounts || s1.accounts[accountID].tenantID != tenantID then (s1, Err(Forbidden))
      else
        var s2 := s1.(accounts := s1.accounts[accountID := s1.accounts[accountID].(status := Disabled)],
                      principals := if accountID in s1.principals && s1.principals[accountID].tenantID == tenantID
                                    then s1.principals[accountID := s1.principals[accountID].(status := Disabled)]
                                    else s1.principals);
        (Audited(s2, r.value.principal, "service_account.disable", Some(Jwt.ResourceRef("service_account", accountID)), "allow"),
         Ok(()))
  }

  predicate KeyHeldBy(s: State, keyID: string, principalID: string, hash: string) {
    hash in s.apiKeys && s.apiKeys[hash].id == keyID && s.apiKeys[hash].principalID == principalID
  }

  ghost predicate PicksKey(s: State, keyID: string, principalID: string, picked: string) {
    (exists hash :: KeyHeldBy(s, keyID, principalID, hash)) ==> KeyHeldBy(s, keyID, principalID, picked)
  }

  /** `picked` is the hash of the matching key that the map iteration meets first. */
  function RevokeAPIKey(checked: Validated, keyID: string, picked: string): (State, Result<(), Error>) {
    var (s1, r) := checked;
    if r.Err? then (s1, Err(r.error))
    else if Blank(keyID) then (s1, Err(InvalidInput))
    else if KeyHeldBy(s1, keyID, r.value.principal.id, picked) then
      (Audited(s1.(apiKeys := s1.apiKeys[picked := s1.apiKeys[picked].(status := KeyRevoked)]),
               r.value.principal, "api_key.revoke", Some(Jwt.ResourceRef("api_key", keyID)), "allow"), Ok(()))
    else (s1, Err(Forbidden))
  }

  datatype ValidKey = ValidKey(key: APIKey, principal: Principal)

  /** `picked` is the hash under which the last-used time is recorded. */
  function ValidateAPIKey(env: Env, s: State, token: string, now: Time, picked: string): (State, Result<ValidKey, Error>) {
    var hash := HashAPIKey(env, token);
    if hash !in s.apiKeys then (s, Err(Unauthorized))
    else
      var key := s.apiKeys[hash];
      if !key.status.KeyActive? || Expired(key.expiresAt, now) || key.principalID !in s.principals then (s, Err(Unauthorized))
      else if s.principals[key.principalID].status.Disabled? then (s, Err(AccountDisabled))
      else if picked in s.apiKeys && s.apiKeys[picked].id == key.id then
        (s.(apiKeys := s.apiKeys[picked := s.apiKeys[picked].(lastUsedAt := now)]),
         Ok(ValidKey(key.(lastUsedAt := now), s.principals[key.principalID])))
      else (s, Err(NotFound))
  }

  // ----- token issuing -----

  datatype TokenRequest = TokenRequest(audience: string, actions: seq<string>, resource: Option<Jwt.ResourceRef>,
                                       now: Time, jwtID: string, randomID: string)

  function RoleKeys(roles: seq<RoleGrant>): seq<string> {
    if roles == [] then []
    else
      var key := NormalizeRoleKey(roles[0].key);
      (if key.Some? then [key.value] else []) + RoleKeys(roles[1..])
  }

  /** What a token is to be signed for, once a request has been granted. */
  datatype Grant = Grant(principal: Principal, session: Session, scopes: seq<string>, source: string,
                         actor: Option<Jwt.ActorRef>, delegation: Option<Jwt.DelegationRef>, ttl: Duration)

  function TokenInput(env: Env, g: Grant, req: TokenRequest): Jwt.SignInput {
    Jwt.SignInput("", req.audience, g.ttl, g.session.tenantID, "", KindName(g.principal.kind), g.principal.id, g.principal.email,
                  g.principal.displayName, g.principal.username, RoleKeys(g.principal.roles), g.scopes, req.resource,
                  g.session.id, g.session.authTime, g.source, req.now, req.jwtID, g.actor, g.delegation, env.policyVersion)
  }

  function Issue(env: Env, s: State, g: Grant, req: TokenRequest): (State, Result<Issued, Error>) {
    match Jwt.Sign(env.codec, env.signer, TokenInput(env, g, req), req.now, req.randomID)
    case Err(e) => (s, Err(SignFailed(e)))
    case Ok((token, claims)) =>
      (AuditedBy(s, g.principal, "internal_jwt.sign", req.resource, "allow", claims.jwtID, g.actor), Ok(Issued(token, claims)))
  }

  function SignGranted(env: Env, granted: (State, Result<Grant, Error>), req: TokenRequest): (State, Result<Issued, Error>) {
    match granted.1
    case Err(e) => (granted.0, Err(e))
    case Ok(g) => Issue(env, granted.0, g, req)
  }

  ghost function GrantSession(env: Env, checked: Validated, req: TokenRequest): (State, Result<Grant, Error>) {
    var (s1, r) := checked;
    if r.Err? then (s1, Err(r.error))
    else
      var p := r.value.principal;
      var scopes := ScopesForActions(s1.policy, p.roles, req.audience, req.actions);
      if scopes == [] then (Audited(s1, p, "internal_jwt.sign", req.resource, "deny"), Err(Forbidden))
      else (s1, Ok(Grant(p, r.value.session, scopes, "web_session", None, None, env.internalTTL)))
  }

  ghost function GrantKey(env: Env, checked: ValidatedKey, req: TokenRequest): (State, Result<Grant, Error>) {
    var (s1, r) := checked;
    if r.Err? then (s1, Err(r.error))
    else
      var key, p := r.value.key, r.value.principal;
      var scopes := IntersectScopes(key.scopes, ScopesForActions(s1.policy, p.roles, req.audience, req.actions));
      if scopes == [] then (Audited(s1, p, "internal_jwt.sign", req.resource, "deny"), Err(Forbidden))
      else (s1, Ok(Grant(p, Session(key.id, p.id, key.tenantID, "", key.createdAt, key.expiresAt, "api_key"), scopes, "api_key",
                         None, None, env.internalTTL)))
  }

  /** Claims of a verified client-credentials token. */
  datatype ClientClaims = ClientClaims(subject: string, tenantID: string, name: string, preferredName: string,
                                       scopes: seq<string>, expiresAt: int)

  function ClientPrincipal(env: Env, tenantID: string, claims: ClientClaims): Principal {
    var name := if claims.preferredName == "" then claims.subject else claims.preferredName;
    var display := if !Blank(claims.name) then claims.name else if !Blank(name) then name else "";
    ServicePrincipal(ServiceID(env, tenantID, claims.subject), tenantID, claims.subject, name, display)
  }

  /** The tenant is created when missing; principal and account are stored as active every time. */
  function WithClient(env: Env, s: State, tenantID: string, claims: ClientClaims, now: Time): State {
    var p := ClientPrincipal(env, tenantID, claims);
    s.(tenants := if tenantID in s.tenants then s.tenants else s.tenants[tenantID := Tenant(tenantID, "", tenantID, tenantID, Active)],
       principals := s.principals[p.id := p],
       accounts := s.accounts[p.id := Account(p.id, tenantID, p.displayName, Active, "casdoor", now)])
  }

  ghost function GrantClient(env: Env, s: State, claims: ClientClaims, req: TokenRequest): (State, Result<Grant, Error>) {
    var tenantID := TrimSpace(claims.tenantID);
    if tenantID == "" then (s, Err(Unauthorized))
    else if claims.scopes == [] then (s, Err(Forbidden))
    else if tenantID in s.tenants && s.tenants[tenantID].status.Disabled? then (s, Err(AccountDisabled))
    else
      var p := ClientPrincipal(env, tenantID, claims);
      var s1 := WithClient(env, s, tenantID, claims, req.now);
      var scopes := IntersectScopes(claims.scopes, ScopesForActions(s1.policy, p.roles, req.audience, req.actions));
      if scopes == [] then (Audited(s1, p, "internal_jwt.sign", req.resource, "deny"), Err(Forbidden))
      else (s1, Ok(Grant(p, Session("client_credentials:" + claims.subject, p.id, tenantID, "", req.now, claims.expiresAt * SECOND,
                                    "service_token"), scopes, "service_token", None, None, env.internalTTL)))
  }

  function AgentPrincipal(id: string, tenantID: string): Principal {
    Principal(id, tenantID, "", "", "", "", Agent, Active, false, [RoleGrant(ROLE_SAKER_RUNNER, "", "")], [])
  }

  ghost function GrantAgent(env: Env, checked: Validated, runID: string, scopes: seq<string>, req: TokenRequest, random: string)
    : (State, Result<Grant, Error>) {
    var (s1, r) := checked;
    if r.Err? then (s1, Err(r.error))
    else
      var actor, session := r.value.principal, r.value.session;
      var held := ScopesForActions(s1.policy, actor.roles, req.audience, req.actions);
      var granted := IntersectScopes(held, if scopes == [] then held else scopes);
      var doer := Some(Jwt.ActorRef(KindName(actor.kind), actor.id));
      if granted == [] then (AuditedBy(s1, actor, "agent.delegate", req.resource, "deny", "", doer), Err(Forbidden))
      else
        var run := if Blank(runID) then "run_" + random else TrimSpace(runID);
        var agent := AgentPrincipal(AGENT_PREFIX + run, actor.tenantID);
        (s1.(principals := s1.principals[agent.id := agent],
             agentRuns := s1.agentRuns[run := AgentRun(run, actor.tenantID, actor.id, agent.id, req.now)]),
         Ok(Grant(agent, session, granted, "agent_delegation", doer, Some(Jwt.DelegationRef(actor.id, session.id, run)), env.agentTTL)))
  }

  // ----- device grant -----

  const DEVICE_TTL: Duration := 15 * MINUTE
  const DEVICE_KEY_TTL: Duration := 30 * DAY

  function StartDeviceAuth(s: State, now: Time, deviceCode: string, userCode: string): State {
    s.(deviceCodes := s.deviceCodes[deviceCode := DeviceCode(deviceCode, userCode, "", now + DEVICE_TTL, DevicePending, now)])
  }

  predicate CodeOfUser(s: State, userCode: string, code: string) {
    code in s.deviceCodes && s.deviceCodes[code].userCode == userCode
  }

  ghost predicate PicksCode(s: State, userCode: string, picked: string) {
    (exists code :: CodeOfUser(s, userCode, code)) ==> CodeOfUser(s, userCode, picked)
  }

  /** `picked` is the code the map iteration meets first. */
  function ApproveDeviceAuth(checked: Validated, rawCode: string, now: Time, picked: string): (State, Result<Principal, Error>) {
    var (s1, r) := checked;
    var userCode := ToUpper(TrimSpace(rawCode));
    if r.Err? then (s1, Err(r.error))
    else if userCode == "" then (s1, Err(InvalidInput))
    else if !CodeOfUser(s1, userCode, picked) then (s1, Err(Unauthorized))
    else
      var code := s1.deviceCodes[picked];
      if Expired(code.expiresAt, now) then (s1, Err(Unauthorized))
      else if !code.status.DevicePending? then (s1, Err(Forbidden))
      else if code.deviceCode !in s1.deviceCodes then (s1, Err(NotFound))
      else
        var p := r.value.principal;
        (Audited(s1.(deviceCodes := s1.deviceCodes[code.deviceCode := code.(principalID := p.id, status := DeviceApproved)]),
                 p, "device.approve", None, "allow"), Ok(p))
  }

  ghost function ExchangeDeviceToken(env: Env, s: State, rawCode: string, now: Time, random: KeyRandom): (State, Result<APIKey, Error>) {
    var deviceCode := TrimSpace(rawCode);
    if deviceCode == "" then (s, Err(InvalidInput))
    else if deviceCode !in s.deviceCodes then (s, Err(Unauthorized))
    else
      var code := s.deviceCodes[deviceCode];
      if Expired(code.expiresAt, now) then (s, Err(Unauthorized))
      else if code.status.DevicePending? then (s, Err(AuthorizationPending))
      else if code.status.DeviceConsumed? || code.principalID !in s.principals then (s, Err(Unauthorized))
      else
        var p := s.principals[code.principalID];
        if p.status.Disabled? then (s, Err(AccountDisabled))
        else
          var key := APIKey("key_" + random.keyID, "", p.tenantID, p.kind, p.id, HashAPIKey(env, random.token),
                            ScopesForRoles(s.policy, p.roles), now + DEVICE_KEY_TTL, KeyActive, now, ZERO_TIME);
          var s1 := s.(apiKeys := s.apiKeys[key.keyHash := key]);
          if code.deviceCode !in s1.deviceCodes then (s1, Err(NotFound))
          else
            (Audited(s1.(deviceCodes := s1.deviceCodes[code.deviceCode := code.(status := DeviceConsumed)]),
                     p, "device.token", None, "allow"), Ok(key))
  }
}
