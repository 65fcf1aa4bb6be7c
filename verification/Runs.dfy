/** Runs of the service: any sequence of calls with any arguments, and what one call can change. */
module Runs {
  import opened Text
  import opened Calendar
  import opened Policies
  import opened Iam
  import opened Identity

  datatype Op =
    | Sync(subject: string, source: Source)
    | SyncOne(snap: Snapshot)
    | Revoke(principal: Principal)
    | Login(principalID: string, now: Time, random: string)
    | Validate(sessionID: string, now: Time, source: Source)
    | ToTenant(sessionID: string, tenantID: string, teamID: string, now: Time, source: Source, after: Source, picked: string)
    | ToTeam(sessionID: string, teamID: string, now: Time, source: Source, after: Source)
    | Admin(action: AdminAction, sessionID: string, principalID: string, now: Time, source: Source)
    | MakeKey(sessionID: string, name: string, scopes: seq<string>, expiresAt: Time, now: Time, source: Source, key: KeyRandom)
    | MakeServiceKey(sessionID: string, name: string, scopes: seq<string>, expiresAt: Time, now: Time, source: Source, key: KeyRandom)
    | DropAccount(sessionID: string, accountID: string, now: Time, source: Source)
    | DropKey(sessionID: string, keyID: string, now: Time, source: Source, picked: string)
    | UseKey(token: string, now: Time, picked: string)
    | TokenForSession(sessionID: string, req: TokenRequest, source: Source)
    | TokenForKey(token: string, req: TokenRequest, picked: string)
    | TokenForClient(claims: ClientClaims, req: TokenRequest)
    | Delegate(sessionID: string, runID: string, scopes: seq<string>, req: TokenRequest, source: Source, random: string)
    | StartDevice(now: Time, deviceCode: string, userCode: string)
    | ApproveDevice(sessionID: string, userCode: string, now: Time, source: Source, picked: string)
    | ExchangeDevice(rawCode: string, now: Time, key: KeyRandom)
    | SetPolicy(policy: Policy)
    | SetRegistration(registration: Registration)

  predicate AsksForToken(op: Op) {
    op.TokenForSession? || op.TokenForKey? || op.TokenForClient? || op.Delegate?
  }

  // ----- results -----

  function Granting(checked: Validated, action: AdminAction, principalID: string, wanted: AdminAction): set<string> {
    if action == wanted && Administer(checked, action, principalID).1.Ok? then {principalID} else {}
  }

  /** Who an administrator's call enables, or approves, if it succeeds. */
  ghost function GrantedBy(env: Env, s: State, op: Op, wanted: AdminAction): set<string> {
    if !op.Admin? then {} else Granting(ValidateSession(env, s, op.sessionID, op.now, op.source), op.action, op.principalID, wanted)
  }

  function OkOf<T, E>(r: Result<T, E>): Option<T> {
    if r.Ok? then Some(r.value) else None
  }

  ghost function SignedIn(env: Env, s: State, op: Op): Option<Session> {
    if op.Login? then OkOf(CreateSession(env, s, op.principalID, op.now, op.random).1) else None
  }

  /** The key a successful call makes. */
  ghost function NewKey(env: Env, s: State, op: Op): Option<APIKey> {
    match op
    case MakeKey(id, name, scopes, expiresAt, now, source, key) =>
      OkOf(CreateAPIKey(env, ValidateSession(env, s, id, now, source), name, scopes, expiresAt, now, key).1)
    case MakeServiceKey(id, name, scopes, expiresAt, now, source, key) =>
      OkOf(CreateServiceAccountToken(env, ValidateSession(env, s, id, now, source), name, scopes, expiresAt, now, key).1)
    case ExchangeDevice(code, now, key) => OkOf(ExchangeDeviceToken(env, s, code, now, key).1)
    case _ => None
  }

  function Caller(checked: Validated): Option<Principal> {
    if checked.1.Ok? then Some(checked.1.value.principal) else None
  }

  /** The principal whose authority a new key draws on: the validated caller, or the principal a
      device code was approved for. */
  function Creator(env: Env, s: State, op: Op): Option<Principal> {
    match op
    case MakeKey(id, _, _, _, now, source, _) => Caller(ValidateSession(env, s, id, now, source))
    case MakeServiceKey(id, _, _, _, now, source, _) => Caller(ValidateSession(env, s, id, now, source))
    case ExchangeDevice(rawCode, _, _) =>
      var code := TrimSpace(rawCode);
      if code in s.deviceCodes && s.deviceCodes[code].principalID in s.principals
      then Some(s.principals[s.deviceCodes[code].principalID]) else None
    case _ => None
  }

  function Approval(checked: Validated, userCode: string, now: Time, picked: string): Option<(string, string)> {
    var r := ApproveDeviceAuth(checked, userCode, now, picked).1;
    if r.Ok? then Some((picked, r.value.id)) else None
  }

  /** The device code a successful approval approves, and for whom. */
  ghost function ApprovedCode(env: Env, s: State, op: Op): Option<(string, string)> {
    if !op.ApproveDevice? then None
    else Approval(ValidateSession(env, s, op.sessionID, op.now, op.source), op.userCode, op.now, op.picked)
  }

  ghost function ConsumedCode(env: Env, s: State, op: Op): Option<string> {
    if op.ExchangeDevice? && ExchangeDeviceToken(env, s, op.rawCode, op.now, op.key).1.Ok? then Some(TrimSpace(op.rawCode)) else None
  }

  function StartedCode(op: Op): Option<DeviceCode> {
    if op.StartDevice? then Some(DeviceCode(op.deviceCode, op.userCode, "", op.now + DEVICE_TTL, DevicePending, op.now)) else None
  }

  /** What a token call is granted to sign. */
  ghost function GrantOf(env: Env, s: State, op: Op): (State, Result<Grant, Error>)
    requires AsksForToken(op)
  {
    match op
    case TokenForSession(id, req, source) => GrantSession(env, ValidateSession(env, s, id, req.now, source), req)
    case TokenForKey(token, req, picked) => GrantKey(env, ValidateAPIKey(env, s, token, req.now, picked), req)
    case TokenForClient(claims, req) => GrantClient(env, s, claims, req)
    case Delegate(id, runID, scopes, req, source, random) =>
      GrantAgent(env, ValidateSession(env, s, id, req.now, source), runID, scopes, req, random)
  }

  ghost function IssuedBy(env: Env, s: State, op: Op): Result<Issued, Error>
    requires AsksForToken(op)
  {
    SignGranted(env, GrantOf(env, s, op), op.req).1
  }

  /** The state after one call. */
  ghost function Apply(env: Env, s: State, op: Op): State {
    match op
    case Sync(subject, source) => SyncDirectoryUser(env, s, source, subject).0
    case SyncOne(snap) => SyncSnapshot(env, s, snap).0
    case Revoke(p) => RevokeDirectoryPrincipal(s, p).0
    case Login(id, now, random) => CreateSession(env, s, id, now, random).0
    case Validate(id, now, source) => ValidateSession(env, s, id, now, source).0
    case ToTenant(id, tenantID, teamID, now, source, after, picked) =>
      Moved(env, MoveTenant(ValidateSession(env, s, id, now, source), tenantID, teamID, picked), now, after).0
    case ToTeam(id, teamID, now, source, after) => Moved(env, MoveTeam(ValidateSession(env, s, id, now, source), teamID), now, after).0
    case Admin(action, id, principalID, now, source) => Administer(ValidateSession(env, s, id, now, source), action, principalID).0
    case MakeKey(id, name, scopes, expiresAt, now, source, key) =>
      CreateAPIKey(env, ValidateSession(env, s, id, now, source), name, scopes, expiresAt, now, key).0
    case MakeServiceKey(id, name, scopes, expiresAt, now, source, key) =>
      CreateServiceAccountToken(env, ValidateSession(env, s, id, now, source), name, scopes, expiresAt, now, key).0
    case DropAccount(id, accountID, now, source) => DisableServiceAccount(ValidateSession(env, s, id, now, source), accountID).0
    case DropKey(id, keyID, now, source, picked) => RevokeAPIKey(ValidateSession(env, s, id, now, source), keyID, picked).0
    case UseKey(token, now, picked) => ValidateAPIKey(env, s, token, now, picked).0
    case TokenForSession(_, req, _) => SignGranted(env, GrantOf(env, s, op), req).0
    case TokenForKey(_, req, _) => SignGranted(env, GrantOf(env, s, op), req).0
    case TokenForClient(_, req) => SignGranted(env, GrantOf(env, s, op), req).0
    case Delegate(_, _, _, req, _, _) => SignGranted(env, GrantOf(env, s, op), req).0
    case StartDevice(now, deviceCode, userCode) => StartDeviceAuth(s, now, deviceCode, userCode)
    case ApproveDevice(id, userCode, now, source, picked) =>
      ApproveDeviceAuth(ValidateSession(env, s, id, now, source), userCode, now, picked).0
    case ExchangeDevice(code, now, key) => ExchangeDeviceToken(env, s, code, now, key).0
    case SetPolicy(policy) => s.(policy := policy)
    case SetRegistration(registration) => s.(registration := registration)
  }

  /** All directory reports of a call stay in `ids`. */
  ghost predicate ReportsWithin(ids: Ids, op: Op) {
    match op
    case Sync(_, source) => SourceWithin(ids, source)
    case SyncOne(snap) => ids(snap.tenant.id, snap.user.id)
    case ToTenant(_, _, _, _, source, after, _) => SourceWithin(ids, source) && SourceWithin(ids, after)
    case ToTeam(_, _, _, source, after) => SourceWithin(ids, source) && SourceWithin(ids, after)
    case Validate(_, _, source) => SourceWithin(ids, source)
    case Admin(_, _, _, _, source) => SourceWithin(ids, source)
    case MakeKey(_, _, _, _, _, source, _) => SourceWithin(ids, source)
    case MakeServiceKey(_, _, _, _, _, source, _) => SourceWithin(ids, source)
    case DropAccount(_, _, _, source) => SourceWithin(ids, source)
    case DropKey(_, _, _, source, _) => SourceWithin(ids, source)
    case TokenForSession(_, _, source) => SourceWithin(ids, source)
    case Delegate(_, _, _, _, source, _) => SourceWithin(ids, source)
    case ApproveDevice(_, _, _, source, _) => SourceWithin(ids, source)
    case _ => true
  }

  ghost predicate RunWithin(ids: Ids, ops: seq<Op>) {
    forall i :: 0 <= i < |ops| ==> ReportsWithin(ids, ops[i])
  }

  // ----- what one call may change -----

  /** What a call did beyond background change: whom it enabled or approved, the session it opened, the
      key it made and on whose authority, what it did to device codes, the token it issued, and whether it
      was to move a session, to serve a client, or to change the policies. */
  datatype Effect = Effect(enabled: set<string>, approved: set<string>, signedIn: Option<Session>,
                           made: Option<APIKey>, creator: Option<Principal>,
                           started: Option<DeviceCode>, approvedCode: Option<(string, string)>, consumed: Option<string>,
                           issued: Option<Issued>, moves: bool, client: bool, policy: bool, registration: bool)

  const NOTHING := Effect({}, {}, None, None, None, None, None, None, None, false, false, false, false)

  const MOVING := NOTHING.(moves := true)
  const SERVING := NOTHING.(client := true)

  ghost function EffectOf(env: Env, s: State, op: Op): Effect {
    Effect(GrantedBy(env, s, op, Enable), GrantedBy(env, s, op, Approve), SignedIn(env, s, op),
           NewKey(env, s, op), Creator(env, s, op), StartedCode(op), ApprovedCode(env, s, op), ConsumedCode(env, s, op),
           if AsksForToken(op) then OkOf(IssuedBy(env, s, op)) else None,
           op.ToTenant? || op.ToTeam?, op.TokenForClient?, op.SetPolicy?, op.SetRegistration?)
  }

  // ----- runs -----

  /** A sequence of calls, the states it leads through and what each call did. */
  datatype Run = Run(states: seq<State>, ops: seq<Op>, effects: seq<Effect>)

  ghost predicate Linked(env: Env, run: Run, i: nat)
    requires i < |run.ops| && |run.states| == |run.ops| + 1 && |run.effects| == |run.ops|
  {
    run.states[i + 1] == Apply(env, run.states[i], run.ops[i]) && run.effects[i] == EffectOf(env, run.states[i], run.ops[i])
  }

  ghost predicate IsRun(env: Env, run: Run) {
    && |run.states| == |run.ops| + 1 && |run.effects| == |run.ops|
    && forall i {:trigger Linked(env, run, i)} :: 0 <= i < |run.ops| ==> Linked(env, run, i)
  }

  ghost predicate FromEmpty(env: Env, run: Run) {
    IsRun(env, run) && run.states[0] == EMPTY_STORE
  }

  lemma RunMore(env: Env, run: Run, op: Op, t: State)
    requires IsRun(env, run) && t == Apply(env, run.states[|run.ops|], op)
    ensures IsRun(env, Run(run.states + [t], run.ops + [op], run.effects + [EffectOf(env, run.states[|run.ops|], op)]))
  {
    hide Apply, EffectOf;
    var more := Run(run.states + [t], run.ops + [op], run.effects + [EffectOf(env, run.states[|run.ops|], op)]);
    forall i | 0 <= i < |more.ops| ensures Linked(env, more, i) {
      if i < |run.ops| { assert Linked(env, run, i); }
    }
  }

  predicate StatusWithin(f: Effect, id: string, a: Status, b: Status) {
    b == a || b.Disabled? || (b.Active? && (id in f.enabled || (id in f.approved && a.Pending?)))
  }

  ghost predicate StatusesWithin(f: Effect, a: map<string, Principal>, b: map<string, Principal>, registration: Registration) {
    && (forall id :: id in a ==> id in b && (a[id].kind.User? || b[id].kind.User? ==>
          a[id].kind == b[id].kind && StatusWithin(f, id, a[id].status, b[id].status)))
    && (forall id :: id in b && id !in a && b[id].kind.User? && b[id].status.Active? ==>
          registration.Open? || id in f.enabled || id in f.approved)
    && (forall id :: id in b && !b[id].kind.User? ==> OtherWithin(f, a, id, b[id]))
  }

  /** Only clients give a record that is not a user's an external user. */
  predicate OtherWithin(f: Effect, a: map<string, Principal>, id: string, b: Principal) {
    b.externalID == "" || f.client || (id in a && !a[id].kind.User? && a[id].externalID == b.externalID)
  }

  ghost predicate SessionsWithin(f: Effect, a: map<string, Session>, b: map<string, Session>) {
    forall k :: k in b ==> SessionWithin(f, a, k, b[k])
  }

  predicate SessionWithin(f: Effect, a: map<string, Session>, k: string, session: Session) {
    || (k in a && session.authTime == a[k].authTime && session.expiresAt == a[k].expiresAt && (f.moves || session == a[k]))
    || (f.signedIn.Some? && session == f.signedIn.value)
  }

  predicate SameGrant(a: APIKey, b: APIKey) {
    a.(status := b.status, lastUsedAt := b.lastUsedAt) == b
  }

  ghost predicate KeysWithin(f: Effect, a: map<string, APIKey>, b: map<string, APIKey>) {
    forall h :: h in b ==> KeyWithin(f, a, h, b[h])
  }

  predicate KeyWithin(f: Effect, a: map<string, APIKey>, h: string, key: APIKey) {
    || (h in a && SameGrant(a[h], key) && (a[h].status.KeyRevoked? ==> key.status.KeyRevoked?))
    || (f.made.Some? && f.made.value.keyHash == h && SameGrant(f.made.value, key))
  }

  predicate CodeWithin(f: Effect, c: string, a: DeviceCode, b: DeviceCode) {
    || b == a
    || (f.started.Some? && b == f.started.value)
    || (a.status.DevicePending? && f.approvedCode == Some((c, b.principalID)) && b == a.(status := DeviceApproved, principalID := b.principalID))
    || (a.status.DeviceApproved? && f.consumed == Some(c) && b == a.(status := DeviceConsumed))
  }

  ghost predicate CodesWithin(f: Effect, a: map<string, DeviceCode>, b: map<string, DeviceCode>) {
    && (forall c :: c in a ==> c in b && CodeWithin(f, c, a[c], b[c]))
    && (forall c :: c in b && c !in a ==> f.started == Some(b[c]))
  }

  /** A call with this effect may lead from `s` to `t`; if `within`, its reports stay in `ids`. */
  ghost predicate Within(env: Env, ids: Ids, within: bool, f: Effect, s: State, t: State) {
    && Shaped(t)
    && TenantsEvolve(s.tenants, t.tenants)
    && StatusesWithin(f, s.principals, t.principals, s.registration)
    && SessionsWithin(f, s.sessions, t.sessions)
    && KeysWithin(f, s.apiKeys, t.apiKeys)
    && CodesWithin(f, s.deviceCodes, t.deviceCodes)
    && (f.policy || t.policy == s.policy) && (f.registration || t.registration == s.registration)
    && Binds(env, ids, within, s, t)
  }

  lemma KeptWithin(env: Env, ids: Ids, within: bool, f: Effect, s: State, t: State)
    requires Kept(env, ids, within, s, t)
    ensures Within(env, ids, within, f, s, t)
  {
    hide Shaped, TenantsEvolve;
  }

  /** Background change first. */
  lemma KeptThenWithin(env: Env, ids: Ids, within: bool, f: Effect, s: State, mid: State, t: State)
    requires Kept(env, ids, within, s, mid) && Within(env, ids, within, f, mid, t)
    ensures Within(env, ids, within, f, s, t)
  {
    hide Shaped, CodesWithin;
    StatusesAfter(f, s, mid, t);
    assert SessionsWithin(f, s.sessions, t.sessions) by { SessionsAfter(f, s, mid, t); }
  }

  lemma StatusesAfter(f: Effect, s: State, mid: State, t: State)
    requires PrincipalsEvolve(s.principals, mid.principals, s.registration) && mid.registration == s.registration
    requires StatusesWithin(f, mid.principals, t.principals, mid.registration)
    ensures StatusesWithin(f, s.principals, t.principals, s.registration)
  {
  }

  lemma SessionsAfter(f: Effect, s: State, mid: State, t: State)
    requires SessionsEvolve(s.sessions, mid.sessions) && SessionsWithin(f, mid.sessions, t.sessions)
    ensures SessionsWithin(f, s.sessions, t.sessions)
  {
    forall k | k in t.sessions ensures SessionWithin(f, s.sessions, k, t.sessions[k]) {
      assert SessionWithin(f, mid.sessions, k, t.sessions[k]);
    }
  }

  /** Background change last. */
  lemma WithinThenKept(env: Env, ids: Ids, within: bool, f: Effect, s: State, mid: State, t: State)
    requires Within(env, ids, within, f, s, mid) && Kept(env, ids, within, mid, t) && mid.registration == s.registration
    ensures Within(env, ids, within, f, s, t)
  {
    hide Shaped, CodesWithin, StatusesWithin;
    assert StatusesWithin(f, s.principals, t.principals, s.registration) by { StatusesBefore(f, s, mid, t); }
    assert SessionsWithin(f, s.sessions, t.sessions) by { SessionsBefore(f, s, mid, t); }
  }

  lemma StatusesBefore(f: Effect, s: State, mid: State, t: State)
    requires StatusesWithin(f, s.principals, mid.principals, s.registration) && mid.registration == s.registration
    requires PrincipalsEvolve(mid.principals, t.principals, mid.registration)
    ensures StatusesWithin(f, s.principals, t.principals, s.registration)
  {
  }

  lemma SessionsBefore(f: Effect, s: State, mid: State, t: State)
    requires SessionsWithin(f, s.sessions, mid.sessions) && SessionsEvolve(mid.sessions, t.sessions)
    ensures SessionsWithin(f, s.sessions, t.sessions)
  {
    forall k | k in t.sessions ensures SessionWithin(f, s.sessions, k, t.sessions[k]) {
      assert SessionWithin(f, s.sessions, k, mid.sessions[k]);
    }
  }

  // ----- own effects -----

  /** Only keys, device codes and audits change. */
  lemma KeysChange(env: Env, ids: Ids, within: bool, f: Effect, s: State, t: State)
    requires Shaped(s) && t == s.(apiKeys := t.apiKeys, deviceCodes := t.deviceCodes, audits := t.audits)
    requires KeysWithin(f, s.apiKeys, t.apiKeys) && CodesWithin(f, s.deviceCodes, t.deviceCodes) && CodesKeyed(t.deviceCodes)
    ensures Within(env, ids, within, f, s, t)
  {
    hide CodesWithin;
  }

  lemma CodesSame(f: Effect, codes: map<string, DeviceCode>)
    ensures CodesWithin(f, codes, codes)
  {
  }

  /** Only audits change. */
  lemma AuditsChange(env: Env, ids: Ids, within: bool, f: Effect, s: State, t: State)
    requires Shaped(s) && t == s.(audits := t.audits)
    ensures Within(env, ids, within, f, s, t)
  {
    hide Bound;
    assert CodesKeyed(t.deviceCodes) by { ShapedCodes(s); }
    KeysChange(env, ids, within, f, s, t);
  }

  lemma ShapedCodes(s: State)
    requires Shaped(s)
    ensures CodesKeyed(s.deviceCodes)
  {
  }

  lemma ShapedAccounts(s: State)
    requires Shaped(s)
    ensures AccountsShaped(s.accounts)
  {
  }

  /** A record that is not a user's is stored. */
  lemma OtherRecordStored(env: Env, ids: Ids, within: bool, f: Effect, s: State, p: Principal, t: State)
    requires Shaped(s) && !p.kind.User? && RecordShaped(p.id, p) && OtherWithin(f, s.principals, p.id, p)
    requires t.principals == s.principals[p.id := p] && TenantsEvolve(s.tenants, t.tenants) && AccountsShaped(t.accounts)
    requires t == s.(tenants := t.tenants, principals := t.principals, accounts := t.accounts, agentRuns := t.agentRuns,
                     apiKeys := t.apiKeys, audits := t.audits)
    requires KeysWithin(f, s.apiKeys, t.apiKeys)
    ensures Within(env, ids, within, f, s, t)
  {
    hide PrincipalID;
    if p.id in s.principals { assert RecordShaped(p.id, s.principals[p.id]); }
    if Bound(env, ids, s) {
      assert forall k :: k in t.sessions ==> SessionOk(s.principals, t.sessions[k]);
    }
  }

  lemma Activated(env: Env, ids: Ids, within: bool, f: Effect, s: State, id: string, t: State)
    requires Shaped(s) && id in s.principals && (id in f.enabled || (id in f.approved && s.principals[id].status.Pending?))
    requires t == s.(principals := s.principals[id := s.principals[id].(status := Active)], audits := t.audits)
    ensures Within(env, ids, within, f, s, t)
  {
    hide Separate, UsersOk, Bound, SessionsShaped, AccountsShaped, CodesKeyed;
    assert PrincipalsShaped(t.principals) && SessionsShaped(t.principals, t.sessions) by { StatusShaped(s, id); }
    if UsersOk(env, ids, s.principals) { StatusNamed(env, ids, s, id); }
    if Bound(env, ids, s) { StatusBound(env, ids, s, id, t); }
  }

  lemma StatusNamed(env: Env, ids: Ids, s: State, id: string)
    requires UsersOk(env, ids, s.principals) && id in s.principals
    ensures UsersOk(env, ids, s.principals[id := s.principals[id].(status := Active)])
  {
    hide PrincipalID;
    assert UserOk(env, ids, s.principals[id]);
  }

  lemma StatusShaped(s: State, id: string)
    requires Shaped(s) && id in s.principals
    ensures var principals := s.principals[id := s.principals[id].(status := Active)];
      PrincipalsShaped(principals) && SessionsShaped(principals, s.sessions)
  {
    assert RecordShaped(id, s.principals[id]);
  }

  lemma StatusBound(env: Env, ids: Ids, s: State, id: string, t: State)
    requires Bound(env, ids, s) && id in s.principals
    requires t.principals == s.principals[id := s.principals[id].(status := Active)] && t.sessions == s.sessions
    ensures Bound(env, ids, t)
  {
    assert forall k :: k in t.sessions ==> SessionOk(s.principals, t.sessions[k]);
  }

  /** A session moves to another principal. */
  lemma ContextMoved(env: Env, ids: Ids, within: bool, s: State, sessionID: string, p: Principal, tenantID: string, teamID: string)
    requires Shaped(s) && sessionID in s.sessions && p.id in s.principals
    requires within && Separate(env, ids) && Bound(env, ids, s) ==> SessionOk(s.principals, s.sessions[sessionID].(principalID := p.id, tenantID := tenantID))
    ensures Within(env, ids, within, MOVING, s, UpdateSessionContext(s, sessionID, p.id, tenantID, teamID))
  {
    hide Separate, UsersOk, PrincipalsShaped;
  }

  // ----- call by call -----

  lemma UnchangedWithin(f: Effect, s: State)
    ensures StatusesWithin(f, s.principals, s.principals, s.registration) && KeysWithin(f, s.apiKeys, s.apiKeys) && CodesWithin(f, s.deviceCodes, s.deviceCodes)
  {
  }

  lemma LoginWithin(env: Env, ids: Ids, s: State, principalID: string, now: Time, random: string)
    requires Shaped(s)
    ensures var (t, r) := CreateSession(env, s, principalID, now, random);
      Within(env, ids, true, NOTHING.(signedIn := OkOf(r)), s, t)
  {
    hide UsersOk, AccountsShaped, PrincipalID, KeysWithin, CodesWithin, StatusesWithin;
    UnchangedWithin(NOTHING.(signedIn := OkOf(CreateSession(env, s, principalID, now, random).1)), s);
    if principalID in s.principals { assert RecordShaped(principalID, s.principals[principalID]); }
  }

  lemma MoveTenantWithin(env: Env, ids: Ids, within: bool, s0: State, checked: Validated, now: Time, tenantID: string, teamID: string, picked: string)
    requires Kept(env, ids, within, s0, checked.0)
    requires checked.1.Ok? ==> ValidFor(s0, checked.0, checked.1.value, now)
    requires checked.1.Ok? && within && Bound(env, ids, s0) ==> UserOk(env, ids, checked.1.value.principal)
    ensures Within(env, ids, within, MOVING, s0, MoveTenant(checked, tenantID, teamID, picked).0)
  {
    hide TrimSpace, Shaped, Within;
    var (s, r) := checked;
    KeptWithin(env, ids, within, MOVING, s0, s);
    var moved := MoveTenant(checked, tenantID, teamID, picked);
    if moved.1.Ok? {
      var v, target := r.value, TrimSpace(tenantID);
      var p := if target == v.session.tenantID then v.principal else s.principals[picked];
      var team := TeamSelection(p, teamID).value;
      assert target != v.session.tenantID ==> p.id == picked by { OwnID(s, picked); }
      var bound := within && Bound(env, ids, s0);
      StronglyKept(env, ids, within, s0, s);
      if bound && Separate(env, ids) {
        assert SessionOk(s.principals, s.sessions[v.session.id]);
        if target == v.session.tenantID { SameTenant(env, ids, s, p); }
      }
      ContextMoved(env, ids, bound, s, v.session.id, p, p.tenantID, team);
      KeptThenWithin(env, ids, bound, MOVING, s0, s, moved.0);
      assert within && UsersOk(env, ids, s0.principals) ==> UsersOk(env, ids, s.principals);
      WeaklyWithin(env, ids, within, MOVING, s0, moved.0);
    }
  }

  /** A bound start may be taken for granted. */
  lemma StronglyKept(env: Env, ids: Ids, within: bool, s: State, t: State)
    requires Kept(env, ids, within, s, t)
    ensures Kept(env, ids, within && Bound(env, ids, s), s, t)
  {
    hide Shaped, Evolves, Bound, Separate;
  }

  lemma WeaklyWithin(env: Env, ids: Ids, within: bool, f: Effect, s: State, t: State)
    requires Within(env, ids, within && Bound(env, ids, s), f, s, t)
    requires within && UsersOk(env, ids, s.principals) ==> UsersOk(env, ids, t.principals)
    ensures Within(env, ids, within, f, s, t)
  {
    hide Shaped, Bound, Separate, StatusesWithin, CodesWithin;
  }

  /** Admitted users of one identifier are in one tenant. */
  lemma SameTenant(env: Env, ids: Ids, s: State, p: Principal)
    requires Separate(env, ids) && Bound(env, ids, s) && Shaped(s) && RecordShaped(p.id, p) && UserOk(env, ids, p) && p.id in s.principals
    ensures s.principals[p.id].kind.User? ==> s.principals[p.id].tenantID == p.tenantID
  {
    assert UserOk(env, ids, s.principals[p.id]) && RecordShaped(p.id, s.principals[p.id]);
  }

  lemma MoveTeamWithin(env: Env, ids: Ids, within: bool, s0: State, checked: Validated, now: Time, teamID: string)
    requires Kept(env, ids, within, s0, checked.0)
    requires checked.1.Ok? ==> ValidFor(s0, checked.0, checked.1.value, now)
    ensures Within(env, ids, within, MOVING, s0, MoveTeam(checked, teamID).0)
  {
    hide Shaped, Within;
    var (s, r) := checked;
    KeptWithin(env, ids, within, MOVING, s0, s);
    var moved := MoveTeam(checked, teamID);
    if moved.1.Ok? {
      var v := r.value;
      if Bound(env, ids, s) { assert SessionOk(s.principals, s.sessions[v.session.id]); }
      ContextMoved(env, ids, within, s, v.session.id, v.principal, v.session.tenantID, TeamSelection(v.principal, teamID).value);
      KeptThenWithin(env, ids, within, MOVING, s0, s, moved.0);
    }
  }

  /** The validation at the end of a switch. */
  lemma MovedWithin(env: Env, ids: Ids, within: bool, s0: State, moved: (State, Result<string, Error>), now: Time, after: Source)
    requires Within(env, ids, within, MOVING, s0, moved.0) && (within ==> SourceWithin(ids, after))
    ensures Within(env, ids, within, MOVING, s0, Moved(env, moved, now, after).0)
  {
    hide ValidateSession;
    if moved.1.Ok? {
      ValidateOk(env, ids, moved.0, moved.1.value, now, after);
      var t := ValidateSession(env, moved.0, moved.1.value, now, after).0;
      assert Kept(env, ids, within, moved.0, t);
      WithinThenKept(env, ids, within, MOVING, s0, moved.0, t);
    }
  }

  lemma AdministerWithin(env: Env, ids: Ids, within: bool, s0: State, checked: Validated, action: AdminAction, principalID: string)
    requires Kept(env, ids, within, s0, checked.0)
    ensures Within(env, ids, within,
                   NOTHING.(enabled := Granting(checked, action, principalID, Enable), approved := Granting(checked, action, principalID, Approve)),
                   s0, Administer(checked, action, principalID).0)
  {
    hide Within, TrimSpace, Revoked, CanManageServiceAccounts, Kept;
    var f := NOTHING.(enabled := Granting(checked, action, principalID, Enable), approved := Granting(checked, action, principalID, Approve));
    var s, t := checked.0, Administer(checked, action, principalID).0;
    KeptWithin(env, ids, within, f, s0, s);
    if Administer(checked, action, principalID).1.Ok? {
      KeptShaped(env, ids, within, s0, s);
      if action.Disable? || action.Reject? {
        assert t == Revoked(s, principalID).(audits := t.audits) && s.audits <= t.audits by { RevokedAudits(s, principalID); }
        RevokedOk(env, ids, within, s, principalID, t);
        KeptWithin(env, ids, within, f, s, t);
      } else {
        Activated(env, ids, within, f, s, principalID, t);
      }
      KeptThenWithin(env, ids, within, f, s0, s, t);
    }
  }

  lemma RevokedAudits(s: State, id: string)
    requires id in s.principals
    ensures Revoked(s, id).audits == s.audits
  {
  }

  lemma CreateAPIKeyWithin(env: Env, ids: Ids, within: bool, s0: State, checked: Validated, name: string, scopes: seq<string>, expiresAt: Time,
                           now: Time, random: KeyRandom)
    requires Kept(env, ids, within, s0, checked.0)
    ensures var (t, r) := CreateAPIKey(env, checked, name, scopes, expiresAt, now, random);
      Within(env, ids, within, NOTHING.(made := OkOf(r)), s0, t)
  {
    hide Within, ScopesHeld, Kept;
    var s := checked.0;
    var (t, r) := CreateAPIKey(env, checked, name, scopes, expiresAt, now, random);
    var f := NOTHING.(made := OkOf(r));
    KeptWithin(env, ids, within, f, s0, s);
    if r.Ok? {
      KeptShaped(env, ids, within, s0, s);
      ShapedCodes(s);
      KeysChange(env, ids, within, f, s, t);
      KeptThenWithin(env, ids, within, f, s0, s, t);
    }
  }

  lemma RevokeAPIKeyWithin(env: Env, ids: Ids, within: bool, s0: State, checked: Validated, keyID: string, picked: string)
    requires Kept(env, ids, within, s0, checked.0)
    ensures Within(env, ids, within, NOTHING, s0, RevokeAPIKey(checked, keyID, picked).0)
  {
    hide Within, TrimSpace, Kept;
    var (t, r) := RevokeAPIKey(checked, keyID, picked);
    KeptWithin(env, ids, within, NOTHING, s0, checked.0);
    if r.Ok? {
      KeptShaped(env, ids, within, s0, checked.0);
      ShapedCodes(checked.0);
      KeysChange(env, ids, within, NOTHING, checked.0, t);
      KeptThenWithin(env, ids, within, NOTHING, s0, checked.0, t);
    }
  }

  lemma ServiceTokenWithin(env: Env, ids: Ids, within: bool, s0: State, checked: Validated, name: string, scopes: seq<string>, expiresAt: Time,
                           now: Time, random: KeyRandom)
    requires Kept(env, ids, within, s0, checked.0)
    ensures var (t, r) := CreateServiceAccountToken(env, checked, name, scopes, expiresAt, now, random);
      Within(env, ids, within, NOTHING.(made := OkOf(r)), s0, t)
  {
    hide Within, TrimSpace, ScopesHeld, CanManageServiceAccounts, Kept;
    var s := checked.0;
    var (t, r) := CreateServiceAccountToken(env, checked, name, scopes, expiresAt, now, random);
    var f := NOTHING.(made := OkOf(r));
    KeptWithin(env, ids, within, f, s0, s);
    if r.Ok? {
      KeptShaped(env, ids, within, s0, s);
      var id := SERVICE_PREFIX + random.accountID;
      PrefixesDisjoint(id);
      OtherRecordStored(env, ids, within, f, s, t.principals[id], t);
      KeptThenWithin(env, ids, within, f, s0, s, t);
    }
  }

  lemma DropAccountWithin(env: Env, ids: Ids, within: bool, s0: State, checked: Validated, accountID: string)
    requires Kept(env, ids, within, s0, checked.0)
    ensures Within(env, ids, within, NOTHING, s0, DisableServiceAccount(checked, accountID).0)
  {
    hide Within, TrimSpace, CanManageServiceAccounts, Kept;
    var s := checked.0;
    var (t, r) := DisableServiceAccount(checked, accountID);
    KeptWithin(env, ids, within, NOTHING, s0, s);
    if r.Ok? {
      KeptShaped(env, ids, within, s0, s);
      PrefixesDisjoint(accountID);
      if accountID in s.principals && s.principals[accountID].tenantID == checked.1.value.session.tenantID {
        assert RecordShaped(accountID, s.principals[accountID]);
        OtherRecordStored(env, ids, within, NOTHING, s, t.principals[accountID], t);
      } else {
        AccountsChange(env, ids, within, s, t);
      }
      KeptThenWithin(env, ids, within, NOTHING, s0, s, t);
    }
  }

  lemma AccountsChange(env: Env, ids: Ids, within: bool, s: State, t: State)
    requires Shaped(s) && t == s.(accounts := t.accounts, audits := t.audits) && AccountsShaped(t.accounts)
    ensures Within(env, ids, within, NOTHING, s, t)
  {
    hide UsersOk;
  }

  lemma UseKeyWithin(env: Env, ids: Ids, s: State, token: string, now: Time, picked: string)
    requires Shaped(s)
    ensures var (t, r) := ValidateAPIKey(env, s, token, now, picked);
      Within(env, ids, true, NOTHING, s, t) && t == s.(apiKeys := t.apiKeys)
  {
    hide Within, HashAPIKey, Shaped, CodesWithin, CodesKeyed;
    ShapedCodes(s);
    CodesSame(NOTHING, s.deviceCodes);
    KeysChange(env, ids, true, NOTHING, s, ValidateAPIKey(env, s, token, now, picked).0);
  }

  lemma DeviceStartWithin(env: Env, ids: Ids, s: State, now: Time, deviceCode: string, userCode: string)
    requires Shaped(s)
    ensures Within(env, ids, true, NOTHING.(started := Some(DeviceCode(deviceCode, userCode, "", now + DEVICE_TTL, DevicePending, now))), s,
                   StartDeviceAuth(s, now, deviceCode, userCode))
  {
    hide Within, PrincipalsShaped, SessionsShaped;
    var f := NOTHING.(started := Some(DeviceCode(deviceCode, userCode, "", now + DEVICE_TTL, DevicePending, now)));
    KeysChange(env, ids, true, f, s, StartDeviceAuth(s, now, deviceCode, userCode));
  }

  lemma ApproveDeviceWithin(env: Env, ids: Ids, within: bool, s0: State, checked: Validated, userCode: string, now: Time, picked: string)
    requires Kept(env, ids, within, s0, checked.0)
    ensures Within(env, ids, within, NOTHING.(approvedCode := Approval(checked, userCode, now, picked)), s0,
                   ApproveDeviceAuth(checked, userCode, now, picked).0)
  {
    hide Within, TrimSpace, Kept, PrincipalsShaped, SessionsShaped;
    var f := NOTHING.(approvedCode := Approval(checked, userCode, now, picked));
    var s, t := checked.0, ApproveDeviceAuth(checked, userCode, now, picked).0;
    KeptShaped(env, ids, within, s0, s);
    KeysChange(env, ids, within, f, s, t);
    KeptThenWithin(env, ids, within, f, s0, s, t);
  }

  /** What a successful exchange found: an approved, unexpired code whose principal gets the key. */
  lemma ExchangeFound(env: Env, s: State, rawCode: string, now: Time, random: KeyRandom)
    requires Shaped(s)
    ensures var (t, r) := ExchangeDeviceToken(env, s, rawCode, now, random);
      var c := TrimSpace(rawCode);
      if r.Ok? then
        && c in s.deviceCodes && s.deviceCodes[c].status.DeviceApproved? && !Expired(s.deviceCodes[c].expiresAt, now)
        && s.deviceCodes[c].principalID in s.principals && r.value.principalID == s.deviceCodes[c].principalID
        && r.value.scopes == ScopesForRoles(s.policy, s.principals[s.deviceCodes[c].principalID].roles)
        && t == s.(apiKeys := s.apiKeys[r.value.keyHash := r.value],
                   deviceCodes := s.deviceCodes[c := s.deviceCodes[c].(status := DeviceConsumed)], audits := t.audits)
      else t == s
  {
    hide TrimSpace, ScopesForRoles, SessionsShaped;
    var c := TrimSpace(rawCode);
    if c in s.deviceCodes && s.deviceCodes[c].principalID in s.principals {
      assert RecordShaped(s.deviceCodes[c].principalID, s.principals[s.deviceCodes[c].principalID]);
    }
  }

  lemma ExchangeWithin(env: Env, ids: Ids, s: State, rawCode: string, now: Time, random: KeyRandom)
    requires Shaped(s)
    ensures var (t, r) := ExchangeDeviceToken(env, s, rawCode, now, random);
      Within(env, ids, true, NOTHING.(made := OkOf(r), consumed := if r.Ok? then Some(TrimSpace(rawCode)) else None), s, t)
  {
    hide Within, TrimSpace, ExchangeDeviceToken, PrincipalsShaped, SessionsShaped, AccountsShaped;
    ExchangeFound(env, s, rawCode, now, random);
    var (t, r) := ExchangeDeviceToken(env, s, rawCode, now, random);
    KeysChange(env, ids, true, NOTHING.(made := OkOf(r), consumed := if r.Ok? then Some(TrimSpace(rawCode)) else None), s, t);
  }

  // ----- tokens -----

  lemma IssueAudits(env: Env, s: State, g: Grant, req: TokenRequest)
    ensures var t := Issue(env, s, g, req).0; t == s.(audits := t.audits)
  {
    hide Jwt.Sign, TokenInput;
  }

  /** Signing what was granted changes audits only. */
  lemma SignedWithin(env: Env, ids: Ids, within: bool, f: Effect, s0: State, granted: (State, Result<Grant, Error>), req: TokenRequest)
    requires Within(env, ids, within, f, s0, granted.0)
    ensures Within(env, ids, within, f, s0, SignGranted(env, granted, req).0)
  {
    hide Issue, Separate;
    if granted.1.Ok? { IssueAudits(env, granted.0, granted.1.value, req); }
  }

  lemma GrantSessionWithin(env: Env, ids: Ids, within: bool, s0: State, checked: Validated, req: TokenRequest)
    requires Kept(env, ids, within, s0, checked.0)
    ensures Within(env, ids, within, NOTHING, s0, GrantSession(env, checked, req).0)
  {
    hide Within, ScopesForActions, Kept, Shaped;
    var s, t := checked.0, GrantSession(env, checked, req).0;
    KeptShaped(env, ids, within, s0, s);
    AuditsChange(env, ids, within, NOTHING, s, t);
    KeptThenWithin(env, ids, within, NOTHING, s0, s, t);
  }

  lemma GrantKeyWithin(env: Env, ids: Ids, s: State, checked: ValidatedKey, req: TokenRequest)
    requires Within(env, ids, true, NOTHING, s, checked.0)
    ensures Within(env, ids, true, NOTHING, s, GrantKey(env, checked, req).0)
  {
    hide ScopesForActions, IntersectScopes, Separate;
  }

  lemma ClientStored(env: Env, ids: Ids, s: State, tenantID: string, claims: ClientClaims, now: Time, t: State)
    requires Shaped(s) && t == WithClient(env, s, tenantID, claims, now).(audits := t.audits)
    ensures Within(env, ids, true, SERVING, s, t)
  {
    hide Within, ServiceID, Shaped;
    ProjectedPrefixes(env, tenantID, claims.subject);
    PrefixesDisjoint(ServiceID(env, tenantID, claims.subject));
    assert AccountsShaped(t.accounts) by { ShapedAccounts(s); }
    OtherRecordStored(env, ids, true, SERVING, s, ClientPrincipal(env, tenantID, claims), t);
  }

  lemma GrantClientWithin(env: Env, ids: Ids, s: State, claims: ClientClaims, req: TokenRequest)
    requires Shaped(s)
    ensures Within(env, ids, true, SERVING, s, GrantClient(env, s, claims, req).0)
  {
    hide Within, TrimSpace, ScopesForActions, IntersectScopes, ClientPrincipal, WithClient, Shaped;
    var t := GrantClient(env, s, claims, req).0;
    AuditsChange(env, ids, true, SERVING, s, s);
    if t != s { ClientStored(env, ids, s, TrimSpace(claims.tenantID), claims, req.now, t); }
  }

  lemma GrantAgentWithin(env: Env, ids: Ids, within: bool, s0: State, checked: Validated, runID: string, scopes: seq<string>, req: TokenRequest,
                         random: string)
    requires Kept(env, ids, within, s0, checked.0)
    ensures Within(env, ids, within, NOTHING, s0, GrantAgent(env, checked, runID, scopes, req, random).0)
  {
    hide Within, ScopesForActions, IntersectScopes, Kept;
    var s := checked.0;
    var (t, r) := GrantAgent(env, checked, runID, scopes, req, random);
    KeptShaped(env, ids, within, s0, s);
    if r.Ok? {
      PrefixesDisjoint(r.value.principal.id);
      OtherRecordStored(env, ids, within, NOTHING, s, r.value.principal, t);
    } else {
      AuditsChange(env, ids, within, NOTHING, s, t);
    }
    KeptThenWithin(env, ids, within, NOTHING, s0, s, t);
  }

  lemma RevokeWithin(env: Env, ids: Ids, s: State, p: Principal)
    requires Shaped(s)
    ensures Kept(env, ids, true, s, RevokeDirectoryPrincipal(s, p).0)
  {
    hide Shaped, Kept, WithoutSessionsOf;
    KeptSame(env, ids, true, s);
    if p.id in s.principals { RevokedOk(env, ids, true, s, p.id, RevokeDirectoryPrincipal(s, p).0); }
  }

  lemma SettingsWithin(env: Env, ids: Ids, s: State, policy: Policy, registration: Registration)
    requires Shaped(s)
    ensures Within(env, ids, true, NOTHING.(policy := true), s, s.(policy := policy))
    ensures Within(env, ids, true, NOTHING.(registration := true), s, s.(registration := registration))
  {
    hide Separate;
  }

  // ----- any call -----

  lemma MoveCallWithin(env: Env, ids: Ids, s: State, op: Op)
    requires Shaped(s) && (op.ToTenant? || op.ToTeam?)
    ensures Within(env, ids, ReportsWithin(ids, op), EffectOf(env, s, op), s, Apply(env, s, op))
  {
    hide ValidateSession, SourceWithin, Within, Shaped;
    var within, more := SourceWithin(ids, op.source), SourceWithin(ids, op.after);
    ValidateOk(env, ids, s, op.sessionID, op.now, op.source);
    var checked := ValidateSession(env, s, op.sessionID, op.now, op.source);
    var moved: (State, Result<string, Error>);
    match op {
      case ToTenant(_, tenantID, teamID, now, _, _, picked) =>
        MoveTenantWithin(env, ids, within, s, checked, now, tenantID, teamID, picked);
        moved := MoveTenant(checked, tenantID, teamID, picked);
      case ToTeam(_, teamID, now, _, _) =>
        MoveTeamWithin(env, ids, within, s, checked, now, teamID);
        moved := MoveTeam(checked, teamID);
    }
    FewerReports(env, ids, within, more, MOVING, s, moved.0);
    MovedWithin(env, ids, within && more, s, moved, op.now, op.after);
  }

  lemma SessionCallWithin(env: Env, ids: Ids, s: State, op: Op)
    requires Shaped(s) && (op.Validate? || op.Admin? || op.DropAccount? || op.DropKey?)
    ensures Within(env, ids, ReportsWithin(ids, op), EffectOf(env, s, op), s, Apply(env, s, op))
  {
    hide ValidateSession, SourceWithin, Kept, Within;
    var within := SourceWithin(ids, op.source);
    ValidateOk(env, ids, s, op.sessionID, op.now, op.source);
    var checked := ValidateSession(env, s, op.sessionID, op.now, op.source);
    match op {
      case Validate(_, _, _) => KeptWithin(env, ids, within, NOTHING, s, checked.0);
      case Admin(action, _, principalID, _, _) => AdministerWithin(env, ids, within, s, checked, action, principalID);
      case DropAccount(_, accountID, _, _) => DropAccountWithin(env, ids, within, s, checked, accountID);
      case DropKey(_, keyID, _, _, picked) => RevokeAPIKeyWithin(env, ids, within, s, checked, keyID, picked);
    }
  }

  lemma FewerReports(env: Env, ids: Ids, within: bool, more: bool, f: Effect, s: State, t: State)
    requires Within(env, ids, within, f, s, t)
    ensures Within(env, ids, within && more, f, s, t)
  {
    hide Shaped, Bound, Separate, StatusesWithin, CodesWithin;
  }

  /** Who made a key and what a token was do not bear on the state. */
  lemma Noted(env: Env, ids: Ids, within: bool, f: Effect, s: State, t: State, creator: Option<Principal>, issued: Option<Issued>)
    requires Within(env, ids, within, f, s, t)
    ensures Within(env, ids, within, f.(creator := creator, issued := issued), s, t)
  {
    hide Shaped;
  }

  lemma KeyCallWithin(env: Env, ids: Ids, s: State, op: Op)
    requires Shaped(s) && (op.MakeKey? || op.MakeServiceKey?)
    ensures Within(env, ids, ReportsWithin(ids, op), EffectOf(env, s, op), s, Apply(env, s, op))
  {
    hide ValidateSession, SourceWithin, Within, Shaped;
    var within := SourceWithin(ids, op.source);
    ValidateOk(env, ids, s, op.sessionID, op.now, op.source);
    var checked := ValidateSession(env, s, op.sessionID, op.now, op.source);
    match op {
      case MakeKey(_, name, scopes, expiresAt, now, _, key) => CreateAPIKeyWithin(env, ids, within, s, checked, name, scopes, expiresAt, now, key);
      case MakeServiceKey(_, name, scopes, expiresAt, now, _, key) => ServiceTokenWithin(env, ids, within, s, checked, name, scopes, expiresAt, now, key);
    }
    Noted(env, ids, within, NOTHING.(made := NewKey(env, s, op)), s, Apply(env, s, op), Caller(checked), None);
  }

  lemma TokenCallWithin(env: Env, ids: Ids, s: State, op: Op)
    requires Shaped(s) && AsksForToken(op)
    ensures Within(env, ids, ReportsWithin(ids, op), EffectOf(env, s, op), s, Apply(env, s, op))
  {
    hide ValidateSession, ValidateAPIKey, GrantClient, SignGranted, SourceWithin, Kept, Within;
    match op {
      case TokenForSession(id, req, source) =>
        ValidateOk(env, ids, s, id, req.now, source);
        GrantSessionWithin(env, ids, SourceWithin(ids, source), s, ValidateSession(env, s, id, req.now, source), req);
      case TokenForKey(token, req, picked) =>
        UseKeyWithin(env, ids, s, token, req.now, picked);
        GrantKeyWithin(env, ids, s, ValidateAPIKey(env, s, token, req.now, picked), req);
      case TokenForClient(claims, req) => GrantClientWithin(env, ids, s, claims, req);
      case Delegate(id, runID, scopes, req, source, random) =>
        ValidateOk(env, ids, s, id, req.now, source);
        GrantAgentWithin(env, ids, SourceWithin(ids, source), s, ValidateSession(env, s, id, req.now, source), runID, scopes, req, random);
    }
    var f := if op.TokenForClient? then SERVING else NOTHING;
    SignedWithin(env, ids, ReportsWithin(ids, op), f, s, GrantOf(env, s, op), op.req);
    Noted(env, ids, ReportsWithin(ids, op), f, s, Apply(env, s, op), None, OkOf(IssuedBy(env, s, op)));
  }

  lemma ReportCallWithin(env: Env, ids: Ids, s: State, op: Op)
    requires Shaped(s) && (op.Sync? || op.SyncOne? || op.Revoke?)
    ensures Within(env, ids, ReportsWithin(ids, op), EffectOf(env, s, op), s, Apply(env, s, op))
  {
    hide Kept, Within;
    match op {
      case Sync(subject, source) => SyncDirectoryUserOk(env, ids, s, source, subject);
      case SyncOne(snap) => SyncSnapshotOk(env, ids, s, snap);
      case Revoke(p) => RevokeWithin(env, ids, s, p);
    }
    KeptWithin(env, ids, ReportsWithin(ids, op), NOTHING, s, Apply(env, s, op));
  }

  lemma DeviceCallWithin(env: Env, ids: Ids, s: State, op: Op)
    requires Shaped(s) && (op.StartDevice? || op.ApproveDevice? || op.ExchangeDevice?)
    ensures Within(env, ids, ReportsWithin(ids, op), EffectOf(env, s, op), s, Apply(env, s, op))
  {
    hide ValidateSession, StartDeviceAuth, ApproveDeviceAuth, ExchangeDeviceToken, SourceWithin, Kept, ValidFor, UserOk, Within, Shaped;
    match op {
      case StartDevice(now, deviceCode, userCode) => DeviceStartWithin(env, ids, s, now, deviceCode, userCode);
      case ApproveDevice(sessionID, userCode, now, source, picked) =>
        ValidateOk(env, ids, s, sessionID, now, source);
        ApproveDeviceWithin(env, ids, SourceWithin(ids, source), s, ValidateSession(env, s, sessionID, now, source), userCode, now, picked);
      case ExchangeDevice(code, now, key) =>
        ExchangeWithin(env, ids, s, code, now, key);
        Noted(env, ids, true, NOTHING.(made := NewKey(env, s, op), consumed := ConsumedCode(env, s, op)), s, Apply(env, s, op),
              Creator(env, s, op), None);
    }
  }

  lemma OtherCallWithin(env: Env, ids: Ids, s: State, op: Op)
    requires Shaped(s) && (op.Login? || op.UseKey? || op.SetPolicy? || op.SetRegistration?)
    ensures Within(env, ids, ReportsWithin(ids, op), EffectOf(env, s, op), s, Apply(env, s, op))
  {
    hide Within;
    match op {
      case Login(id, now, random) => LoginWithin(env, ids, s, id, now, random);
      case UseKey(token, now, picked) => UseKeyWithin(env, ids, s, token, now, picked);
      case SetPolicy(policy) => SettingsWithin(env, ids, s, policy, Open);
      case SetRegistration(registration) => SettingsWithin(env, ids, s, Policy(map[]), registration);
    }
  }

  /** Whatever the call and whatever its arguments, it changes no more than its effect says, and it keeps
      sessions bound if its reports stay among separate pairs. */
  lemma CallWithin(env: Env, ids: Ids, s: State, op: Op)
    requires Shaped(s)
    ensures Within(env, ids, ReportsWithin(ids, op), EffectOf(env, s, op), s, Apply(env, s, op))
  {
    hide Apply, EffectOf, Within, Shaped;
    if op.Sync? || op.SyncOne? || op.Revoke? { ReportCallWithin(env, ids, s, op); }
    else if op.ToTenant? || op.ToTeam? { MoveCallWithin(env, ids, s, op); }
    else if op.Validate? || op.Admin? || op.DropAccount? || op.DropKey? { SessionCallWithin(env, ids, s, op); }
    else if op.MakeKey? || op.MakeServiceKey? { KeyCallWithin(env, ids, s, op); }
    else if AsksForToken(op) { TokenCallWithin(env, ids, s, op); }
    else if op.StartDevice? || op.ApproveDevice? || op.ExchangeDevice? { DeviceCallWithin(env, ids, s, op); }
    else { OtherCallWithin(env, ids, s, op); }
  }
}
