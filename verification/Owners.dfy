/** Whose a session is, and when a session or a key is no longer any use, over whole runs. */
module Owners {
  import opened Text
  import opened Calendar
  import opened Iam
  import opened Identity
  import opened Access
  import opened Tokens
  import opened Runs
  import opened Histories

  // ----- disabled users -----

  lemma {:induction false} SyncedStayDisabled(env: Env, s: State, snaps: seq<Snapshot>, id: string)
    requires Shaped(s) && id in s.principals && s.principals[id].status.Disabled?
    ensures var (t, r) := SyncAll(env, s, snaps);
      r.Ok? ==> forall p :: p in r.value && p.id == id ==> p.status.Disabled?
    decreases |snaps|
  {
    hide SyncSnapshot, Shaped, Kept;
    if snaps != [] {
      var (t, r) := SyncSnapshot(env, s, snaps[0]);
      var ids: Ids := (t, u) => true;
      SyncSnapshotOk(env, ids, s, snaps[0]);
      if r.Ok? {
        OneStaysDisabled(env, s, snaps[0], id);
        KeptShaped(env, ids, ids(snaps[0].tenant.id, snaps[0].user.id), s, t);
        SyncedStayDisabled(env, t, snaps[1..], id);
      }
    }
  }

  lemma OneStaysDisabled(env: Env, s: State, snap: Snapshot, id: string)
    requires Shaped(s) && id in s.principals && s.principals[id].status.Disabled? && SyncSnapshot(env, s, snap).1.Ok?
    ensures var (t, r) := SyncSnapshot(env, s, snap);
      id in t.principals && t.principals[id].status.Disabled? && (r.value.id == id ==> r.value.status.Disabled?)
  {
    hide Shaped, SyncSnapshot, PrincipalID;
    SyncExactly(env, s, snap);
    OwnID(s, id);
    ProjectedPrefixes(env, snap.tenant.id, snap.user.id);
  }

  /** No session of a disabled record validates, whatever the directory says. */
  lemma DisabledNeverValidates(env: Env, s: State, sessionID: string, now: Time, source: Source)
    requires Shaped(s) && TrimSpace(sessionID) in s.sessions
    requires s.principals[s.sessions[TrimSpace(sessionID)].principalID].status.Disabled?
    ensures ValidateSession(env, s, sessionID, now, source).1.Err?
  {
    hide TrimSpace, ValidateSession, RefreshDirectoryPrincipal, SyncAll, AccountsShaped, CodesKeyed;
    var p := s.principals[s.sessions[TrimSpace(sessionID)].principalID];
    ValidateExactly(env, s, sessionID, now, source);
    RefreshExactly(env, s, p, source);
    assert p.id == s.sessions[TrimSpace(sessionID)].principalID by { OwnID(s, s.sessions[TrimSpace(sessionID)].principalID); }
    SyncedFrom(env, s, source, p.externalID);
    if source(p.externalID).Ok? { SyncedStayDisabled(env, s, source(p.externalID).value, p.id); }
  }

  lemma SyncedFrom(env: Env, s: State, source: Source, subject: string)
    ensures var r := SyncDirectoryUser(env, s, source, subject).1;
      r.Ok? ==> source(subject).Ok? && SyncAll(env, s, source(subject).value).1 == r
  {
    hide SyncAll, TrimSpace;
  }

  /** After an administrator's successful call disabled, or rejected, a user, it is disabled and signed out. */
  lemma DisablingCall(env: Env, run: Run, i: nat, id: string)
    requires IsRun(env, run) && i < |run.ops| && Shaped(run.states[i]) && run.ops[i].Admin? && run.ops[i].principalID == id
    requires run.ops[i].action.Disable? || run.ops[i].action.Reject?
    requires Administer(ValidateSession(env, run.states[i], run.ops[i].sessionID, run.ops[i].now, run.ops[i].source), run.ops[i].action, id).1.Ok?
    ensures var t := run.states[i + 1];
      id in t.principals && t.principals[id].status.Disabled? && forall k :: k in t.sessions ==> t.sessions[k].principalID != id
  {
    hide ValidateSession, Administer, Apply, EffectOf, Shaped;
    assert Linked(env, run, i);
    AdminApplied(env, run.states[i], run.ops[i]);
    assert run.ops[i].action != Enable && run.ops[i].action != Approve;
    RefusedWhenInvalid(ValidateSession(env, run.states[i], run.ops[i].sessionID, run.ops[i].now, run.ops[i].source), run.ops[i].action, id);
    AdministerExactly(ValidateSession(env, run.states[i], run.ops[i].sessionID, run.ops[i].now, run.ops[i].source), run.ops[i].action, id);
  }

  lemma AdminApplied(env: Env, s: State, op: Op)
    requires op.Admin?
    ensures Apply(env, s, op) == Administer(ValidateSession(env, s, op.sessionID, op.now, op.source), op.action, op.principalID).0
  {
    hide ValidateSession, Administer;
  }

  lemma RefusedWhenInvalid(checked: Validated, action: AdminAction, id: string)
    ensures Administer(checked, action, id).1.Ok? ==> checked.1.Ok?
  {
  }

  /** From then on no session of that user validates until an administrator enables it. */
  lemma NoUseUntilEnabled(env: Env, run: Run, j: nat, k: nat, id: string, sessionID: string, now: Time, source: Source)
    requires IsRun(env, run) && Shaped(run.states[0]) && j <= k <= |run.ops| && DisabledAt(run.states[j], id)
    requires TrimSpace(sessionID) in run.states[k].sessions && run.states[k].sessions[TrimSpace(sessionID)].principalID == id
    ensures ValidateSession(env, run.states[k], sessionID, now, source).1.Err? || exists i :: j <= i < k && EnabledAt(env, run, i, id)
  {
    hide TrimSpace, ValidateSession, Shaped, Linked, EnabledAt;
    DisabledUntilEnabled(env, run, j, k, id);
    ShapedAlong(env, run, k);
    if DisabledAt(run.states[k], id) { DisabledNeverValidates(env, run.states[k], sessionID, now, source); }
  }

  lemma ShapedAlong(env: Env, run: Run, i: nat)
    requires IsRun(env, run) && Shaped(run.states[0]) && i <= |run.ops|
    ensures Shaped(run.states[i])
  {
    hide Shaped, Linked, StepWithin;
    if i > 0 { StepAt(env, CleanIds, run, i - 1); }
  }

  // ----- disabled tenants -----

  /** Once a tenant is disabled, no session in it validates again. */
  lemma ClosedTenant(env: Env, run: Run, j: nat, k: nat, tenantID: string, sessionID: string, now: Time, source: Source)
    requires IsRun(env, run) && Shaped(run.states[0]) && j <= k <= |run.ops|
    requires tenantID in run.states[j].tenants && run.states[j].tenants[tenantID].status.Disabled?
    requires TrimSpace(sessionID) in run.states[k].sessions && run.states[k].sessions[TrimSpace(sessionID)].tenantID == tenantID
    ensures ValidateSession(env, run.states[k], sessionID, now, source).1.Err?
  {
    hide TrimSpace, ValidateSession, Shaped, Linked;
    TenantsKeepStanding(env, run, j, k);
    ValidateExactly(env, run.states[k], sessionID, now, source);
  }

  /** Nothing is issued from a session that does not validate. */
  lemma NoTokenUnvalidated(env: Env, s: State, op: Op)
    requires FromSession(op) && ValidateSession(env, s, op.sessionID, op.req.now, op.source).1.Err?
    ensures IssuedBy(env, s, op).Err?
  {
    hide ValidateSession, Issue;
  }

  // ----- revoked keys -----

  /** The i-th call of the run makes a key under this hash. */
  ghost predicate MakesKey(run: Run, i: nat, h: string)
    requires i < |run.effects|
  {
    run.effects[i].made.Some? && run.effects[i].made.value.keyHash == h
  }

  predicate RevokedAt(s: State, h: string) {
    h in s.apiKeys && s.apiKeys[h].status.KeyRevoked?
  }

  /** After a successful revocation the key is revoked. */
  lemma RevokingCall(env: Env, run: Run, i: nat)
    requires IsRun(env, run) && i < |run.ops| && run.ops[i].DropKey?
    requires RevokeAPIKey(ValidateSession(env, run.states[i], run.ops[i].sessionID, run.ops[i].now, run.ops[i].source), run.ops[i].keyID, run.ops[i].picked).1.Ok?
    ensures RevokedAt(run.states[i + 1], run.ops[i].picked) && run.states[i + 1].apiKeys[run.ops[i].picked].id == run.ops[i].keyID
  {
    hide ValidateSession, Apply, EffectOf, TrimSpace;
    assert Linked(env, run, i);
    DropKeyApplied(env, run.states[i], run.ops[i]);
  }

  lemma DropKeyApplied(env: Env, s: State, op: Op)
    requires op.DropKey?
    ensures Apply(env, s, op) == RevokeAPIKey(ValidateSession(env, s, op.sessionID, op.now, op.source), op.keyID, op.picked).0
  {
    hide ValidateSession, RevokeAPIKey;
  }

  /** A revoked key stays revoked until a call makes one under its hash again. */
  lemma {:induction false} RevokedForGood(env: Env, run: Run, j: nat, k: nat, h: string)
    requires IsRun(env, run) && Shaped(run.states[0]) && j <= k <= |run.ops| && RevokedAt(run.states[j], h)
    requires forall m: nat :: j <= m < k ==> !MakesKey(run, m, h)
    ensures h in run.states[k].apiKeys ==> RevokedAt(run.states[k], h)
    decreases k
  {
    hide Shaped, Linked, ReportsWithin, TenantsEvolve, StatusesWithin, SessionsWithin, CodesWithin, Binds;
    if j < k {
      RevokedForGood(env, run, j, k - 1, h);
      StepAt(env, CleanIds, run, k - 1);
      assert !MakesKey(run, k - 1, h);
      assert h in run.states[k].apiKeys ==> KeyWithin(run.effects[k - 1], run.states[k - 1].apiKeys, h, run.states[k].apiKeys[h]);
    }
  }

  /** Until then no token of that hash is accepted, and none is signed with it. */
  lemma RevokedNeverUsed(env: Env, run: Run, j: nat, k: nat, h: string, token: string, now: Time, picked: string, req: TokenRequest)
    requires IsRun(env, run) && Shaped(run.states[0]) && j <= k <= |run.ops| && RevokedAt(run.states[j], h)
    requires (forall m: nat :: j <= m < k ==> !MakesKey(run, m, h)) && HashAPIKey(env, token) == h
    ensures ValidateAPIKey(env, run.states[k], token, now, picked).1.Err?
    ensures IssuedBy(env, run.states[k], TokenForKey(token, req, picked)).Err?
  {
    hide Shaped, Linked, TrimSpace, ValidateAPIKey, IssuedBy, MakesKey;
    RevokedForGood(env, run, j, k, h);
    UnacceptedKey(env, run.states[k], token, now, picked);
    UnacceptedKey(env, run.states[k], token, req.now, picked);
    NoTokenForKey(env, run.states[k], token, req, picked);
  }

  lemma NoTokenForKey(env: Env, s: State, token: string, req: TokenRequest, picked: string)
    requires ValidateAPIKey(env, s, token, req.now, picked).1.Err?
    ensures IssuedBy(env, s, TokenForKey(token, req, picked)).Err?
  {
    hide ValidateAPIKey, Issue;
  }

  // ----- external users -----

  /** Admitted pairs that share an identifier are about one subject. */
  ghost predicate SubjectsApart(env: Env, ids: Ids) {
    forall t1, u1, t2, u2 {:trigger ids(t1, u1), ids(t2, u2)} ::
      ids(t1, u1) && ids(t2, u2) && PrincipalID(env, t1, u1) == PrincipalID(env, t2, u2) ==> u1 == u2
  }

  /** No record but a user's has an external user. */
  ghost predicate PlainOthers(principals: map<string, Principal>) {
    forall id :: id in principals && !principals[id].kind.User? ==> principals[id].externalID == ""
  }

  ghost predicate NoClients(ops: seq<Op>) {
    forall i :: 0 <= i < |ops| ==> !ops[i].TokenForClient?
  }

  function ExternalUser(s: State, k: string): Option<string> {
    if k in s.sessions && s.sessions[k].principalID in s.principals then Some(s.principals[s.sessions[k].principalID].externalID) else None
  }

  lemma SameID(env: Env, ids: Ids, p: Principal, q: Principal)
    requires SubjectsApart(env, ids) && UserOk(env, ids, p) && UserOk(env, ids, q) && p.kind.User? && q.kind.User? && p.id == q.id
    ensures p.externalID == q.externalID
  {
    hide PrincipalID;
  }

  /** A record keeps its external user. */
  lemma RecordKeepsUser(env: Env, ids: Ids, s: State, t: State, id: string)
    requires SubjectsApart(env, ids) && Shaped(s) && Shaped(t) && id in s.principals && id in t.principals
    requires UsersOk(env, ids, s.principals) && UsersOk(env, ids, t.principals) && PlainOthers(s.principals) && PlainOthers(t.principals)
    ensures t.principals[id].externalID == s.principals[id].externalID
  {
    hide UserOk, SubjectsApart;
    var p, q := s.principals[id], t.principals[id];
    assert RecordShaped(id, p) && RecordShaped(id, q) && UserOk(env, ids, p) && UserOk(env, ids, q);
    if p.kind.User? { SameID(env, ids, p, q); }
  }

  lemma PlainKept(env: Env, ids: Ids, within: bool, f: Effect, s: State, t: State)
    requires Within(env, ids, within, f, s, t) && PlainOthers(s.principals) && !f.client
    ensures PlainOthers(t.principals)
  {
    hide Shaped, TenantsEvolve, SessionsWithin, KeysWithin, CodesWithin, Binds;
    forall id | id in t.principals && !t.principals[id].kind.User? ensures t.principals[id].externalID == "" {
      assert OtherWithin(f, s.principals, id, t.principals[id]);
    }
  }

  lemma PlainBackground(env: Env, ids: Ids, within: bool, s: State, t: State)
    requires Kept(env, ids, within, s, t) && PlainOthers(s.principals)
    ensures PlainOthers(t.principals)
  {
    hide Shaped, TenantsEvolve, SessionsEvolve, Binds;
  }

  /** The user of a validated session is the stored one's. */
  lemma ValidatedUser(env: Env, ids: Ids, s: State, sessionID: string, now: Time, source: Source)
    requires SubjectsApart(env, ids) && Shaped(s) && UsersOk(env, ids, s.principals) && PlainOthers(s.principals) && SourceWithin(ids, source)
    requires ValidateSession(env, s, sessionID, now, source).1.Ok?
    ensures var v := ValidateSession(env, s, sessionID, now, source).1.value;
      && v.session.id == TrimSpace(sessionID) && v.session.id in s.sessions && v.session == s.sessions[v.session.id]
      && v.principal.id == v.session.principalID && v.principal.id in s.principals
      && v.principal.externalID == s.principals[v.principal.id].externalID
  {
    hide ValidateSession, TrimSpace, SourceWithin, SubjectsApart, Kept, UserOk, AccountsShaped, CodesKeyed, RefreshDirectoryPrincipal, SyncDirectoryUser;
    var v := ValidateSession(env, s, sessionID, now, source).1.value;
    ValidateOk(env, ids, s, sessionID, now, source);
    ValidateExactly(env, s, sessionID, now, source);
    var p := s.principals[v.session.principalID];
    assert RecordShaped(p.id, p) && UserOk(env, ids, p);
    if p.kind.User? {
      ValidatedNamed(env, ids, s, sessionID, now, source);
      SameID(env, ids, p, v.principal);
    }
  }

  lemma ValidatedNamed(env: Env, ids: Ids, s: State, sessionID: string, now: Time, source: Source)
    requires Shaped(s) && UsersOk(env, ids, s.principals) && SourceWithin(ids, source)
    requires ValidateSession(env, s, sessionID, now, source).1.Ok?
    ensures UserOk(env, ids, ValidateSession(env, s, sessionID, now, source).1.value.principal)
  {
    hide UserOk, SourceWithin, TrimSpace, ValidateSession, RefreshDirectoryPrincipal, Kept, AccountsShaped, CodesKeyed;
    ValidateExactly(env, s, sessionID, now, source);
    var p := s.principals[s.sessions[TrimSpace(sessionID)].principalID];
    assert RecordShaped(s.sessions[TrimSpace(sessionID)].principalID, p) && UserOk(env, ids, p);
    RefreshOk(env, ids, s, p, source);
  }

  /** A call that moves no session leaves every session with its external user. */
  lemma StayingOwner(env: Env, ids: Ids, f: Effect, s: State, t: State, k: string)
    requires Within(env, ids, true, f, s, t) && SubjectsApart(env, ids) && Shaped(s) && UsersOk(env, ids, s.principals)
    requires PlainOthers(s.principals) && PlainOthers(t.principals) && !f.moves && k in t.sessions && !(f.signedIn.Some? && f.signedIn.value.id == k)
    ensures k in s.sessions && ExternalUser(t, k) == ExternalUser(s, k)
  {
    hide SubjectsApart, UsersOk, TenantsEvolve, StatusesWithin, KeysWithin, CodesWithin, PlainOthers, PrincipalsShaped;
    assert SessionWithin(f, s.sessions, k, t.sessions[k]);
    RecordKeepsUser(env, ids, s, t, s.sessions[k].principalID);
  }

  /** Background change leaves every session with its external user. */
  lemma BackgroundOwner(env: Env, ids: Ids, s: State, t: State, k: string)
    requires Kept(env, ids, true, s, t) && SubjectsApart(env, ids) && Shaped(s) && UsersOk(env, ids, s.principals) && PlainOthers(s.principals)
    ensures UsersOk(env, ids, t.principals) && PlainOthers(t.principals) && Shaped(t)
    ensures k in t.sessions ==> k in s.sessions && t.sessions[k] == s.sessions[k] && ExternalUser(t, k) == ExternalUser(s, k)
  {
    hide SubjectsApart, UsersOk, TenantsEvolve, PlainOthers, PrincipalsShaped;
    PlainBackground(env, ids, true, s, t);
    if k in t.sessions { RecordKeepsUser(env, ids, s, t, s.sessions[k].principalID); }
  }

  /** A switch leaves every session with its external user. */
  lemma MovedOwner(env: Env, ids: Ids, s: State, op: Op, k: string)
    requires (op.ToTenant? || op.ToTeam?) && SubjectsApart(env, ids) && Shaped(s) && UsersOk(env, ids, s.principals) && PlainOthers(s.principals)
    requires SourceWithin(ids, op.source) && SourceWithin(ids, op.after) && k in Apply(env, s, op).sessions
    ensures k in s.sessions && ExternalUser(Apply(env, s, op), k) == ExternalUser(s, k)
  {
    hide ValidateSession, MoveTenant, MoveTeam, SourceWithin, SubjectsApart, UsersOk, PlainOthers, Kept, ValidFor, Shaped, UserOk, TrimSpace;
    ValidateOk(env, ids, s, op.sessionID, op.now, op.source);
    var checked := ValidateSession(env, s, op.sessionID, op.now, op.source);
    var s1 := checked.0;
    BackgroundOwner(env, ids, s, s1, k);
    var moved := if op.ToTenant? then MoveTenant(checked, op.tenantID, op.teamID, op.picked) else MoveTeam(checked, op.teamID);
    if checked.1.Ok? {
      ValidatedUser(env, ids, s, op.sessionID, op.now, op.source);
      ValidForStored(s, s1, checked.1.value, op.now);
      MovedStep(env, ids, s, checked, op, moved, k);
    } else {
      NotMoved(checked, op);
    }
    if moved.1.Ok? {
      ValidateOk(env, ids, moved.0, moved.1.value, op.now, op.after);
      BackgroundOwner(env, ids, moved.0, Apply(env, s, op), k);
    }
  }

  lemma ValidForStored(s: State, t: State, v: Valid, now: Time)
    requires ValidFor(s, t, v, now)
    ensures v.principal.id in t.principals
  {
  }

  lemma NotMoved(checked: Validated, op: Op)
    requires (op.ToTenant? || op.ToTeam?) && checked.1.Err?
    ensures op.ToTenant? ==> MoveTenant(checked, op.tenantID, op.teamID, op.picked) == (checked.0, Err(checked.1.error))
    ensures op.ToTeam? ==> MoveTeam(checked, op.teamID) == (checked.0, Err(checked.1.error))
  {
  }

  /** The middle of a switch: after the first validation and before the second. */
  lemma MovedStep(env: Env, ids: Ids, s: State, checked: Validated, op: Op, moved: (State, Result<string, Error>), k: string)
    requires (op.ToTenant? && moved == MoveTenant(checked, op.tenantID, op.teamID, op.picked)) || (op.ToTeam? && moved == MoveTeam(checked, op.teamID))
    requires checked.1.Ok? && SubjectsApart(env, ids) && Shaped(s) && Shaped(checked.0) && UsersOk(env, ids, s.principals)
    requires UsersOk(env, ids, checked.0.principals) && PlainOthers(s.principals) && PlainOthers(checked.0.principals)
    requires var v := checked.1.value;
      && v.session.id in s.sessions && v.principal.id == s.sessions[v.session.id].principalID && v.principal.id in s.principals
      && v.principal.id in checked.0.principals && v.principal.externalID == s.principals[v.principal.id].externalID
    requires k in checked.0.sessions ==> k in s.sessions && checked.0.sessions[k] == s.sessions[k] && ExternalUser(checked.0, k) == ExternalUser(s, k)
    ensures Shaped(moved.0) && UsersOk(env, ids, moved.0.principals) && PlainOthers(moved.0.principals)
    ensures k in moved.0.sessions ==> k in s.sessions && ExternalUser(moved.0, k) == ExternalUser(s, k)
  {
    hide SubjectsApart, UsersOk, PlainOthers, TrimSpace, MoveTenant, MoveTeam, TeamAllowed, Shaped;
    var s1, v := checked.0, checked.1.value;
    RecordKeepsUser(env, ids, s, s1, v.principal.id);
    if op.ToTeam? {
      TeamSwitchExactly(checked, op.teamID);
    } else if moved.0 != s1 {
      MovedToSameUser(checked, op.tenantID, op.teamID, op.picked);
      OwnID(s1, op.picked);
    }
    if moved.0 != s1 {
      SessionKeyed(s1, v.session.id);
      ContextShaped(s1, moved.0, v.session.id);
    }
  }

  lemma SessionKeyed(s: State, k: string)
    requires Shaped(s) && k in s.sessions
    ensures s.sessions[k].id == k
  {
  }

  lemma ContextShaped(s: State, t: State, id: string)
    requires Shaped(s) && OnlySession(s, t, id) && id in s.sessions
    requires t.sessions[id].id == id && t.sessions[id].principalID in s.principals
    ensures Shaped(t)
  {
    hide PrincipalsShaped;
  }

  /** A session that moves, moves to a record of the same external user. */
  lemma MovedToSameUser(checked: Validated, tenantID: string, teamID: string, picked: string)
    requires checked.1.Ok? && MoveTenant(checked, tenantID, teamID, picked).0 != checked.0
    ensures var s, v := checked.0, checked.1.value;
      var t := MoveTenant(checked, tenantID, teamID, picked).0;
      && OnlySession(s, t, v.session.id) && v.session.id in s.sessions && t.sessions[v.session.id].id == s.sessions[v.session.id].id
      && (t.sessions[v.session.id].principalID == v.principal.id
          || (picked in s.principals && t.sessions[v.session.id].principalID == s.principals[picked].id
              && s.principals[picked].externalID == v.principal.externalID != ""))
  {
    hide TrimSpace, TeamSelection;
  }

  // ----- over a run -----

  /** Users are named by their owners, and nobody else has an external user. */
  ghost predicate Named(env: Env, ids: Ids, s: State) {
    UsersOk(env, ids, s.principals) && PlainOthers(s.principals)
  }

  lemma NamedStep(env: Env, ids: Ids, run: Run, m: nat)
    requires IsRun(env, run) && Shaped(run.states[0]) && m < |run.ops| && ReportsWithin(ids, run.ops[m]) && !run.ops[m].TokenForClient?
    requires Named(env, ids, run.states[m])
    ensures Named(env, ids, run.states[m + 1]) && !run.effects[m].client && StepWithin(env, ids, run, m)
  {
    hide Shaped, UsersOk, PlainOthers, ReportsWithin, Apply, TenantsEvolve, StatusesWithin, SessionsWithin, KeysWithin, CodesWithin;
    StepAt(env, ids, run, m);
    assert Linked(env, run, m);
    NotServing(env, run.states[m], run.ops[m]);
    PlainKept(env, ids, true, run.effects[m], run.states[m], run.states[m + 1]);
  }

  lemma NotServing(env: Env, s: State, op: Op)
    ensures EffectOf(env, s, op).client == op.TokenForClient? && EffectOf(env, s, op).moves == (op.ToTenant? || op.ToTeam?)
  {
    hide GrantedBy, SignedIn, NewKey, Creator, ApprovedCode, ConsumedCode, IssuedBy;
  }

  ghost predicate SignsIn(run: Run, m: nat, k: string)
    requires m < |run.effects|
  {
    run.effects[m].signedIn.Some? && run.effects[m].signedIn.value.id == k
  }

  /** One call: a session that it does not open keeps its external user. */
  lemma OwnerStep(env: Env, ids: Ids, run: Run, m: nat, k: string)
    requires IsRun(env, run) && Shaped(run.states[0]) && m < |run.ops| && ReportsWithin(ids, run.ops[m]) && !run.ops[m].TokenForClient?
    requires SubjectsApart(env, ids) && Named(env, ids, run.states[m]) && k in run.states[m + 1].sessions && !SignsIn(run, m, k)
    ensures k in run.states[m].sessions && ExternalUser(run.states[m + 1], k) == ExternalUser(run.states[m], k)
  {
    hide Shaped, SubjectsApart, UsersOk, PlainOthers, Apply, EffectOf, ExternalUser, SourceWithin, Within;
    NamedStep(env, ids, run, m);
    ShapedAlong(env, run, m);
    assert Linked(env, run, m);
    NotServing(env, run.states[m], run.ops[m]);
    if run.ops[m].ToTenant? || run.ops[m].ToTeam? {
      MovedOwner(env, ids, run.states[m], run.ops[m], k);
    } else {
      StayingOwner(env, ids, run.effects[m], run.states[m], run.states[m + 1], k);
    }
  }

  lemma {:induction false} NamedAlong(env: Env, ids: Ids, run: Run, i: nat)
    requires FromEmpty(env, run) && RunWithin(ids, run.ops) && NoClients(run.ops) && i <= |run.ops|
    ensures Named(env, ids, run.states[i])
  {
    hide Shaped, UsersOk, PlainOthers, Linked, StepWithin, ReportsWithin;
    EmptyShaped(env, ids);
    if i > 0 {
      NamedAlong(env, ids, run, i - 1);
      NamedStep(env, ids, run, i - 1);
    } else {
      EmptyNamed(env, ids);
    }
  }

  lemma EmptyNamed(env: Env, ids: Ids)
    ensures Named(env, ids, EMPTY_STORE)
  {
  }

  /** A session stays with the external user it was opened for: if admitted pairs that share an
      identifier are about one subject, nobody else ever has it, through any switches and syncs. */
  lemma {:induction false} OwnerKept(env: Env, ids: Ids, run: Run, j: nat, i: nat, k: string)
    requires FromEmpty(env, run) && RunWithin(ids, run.ops) && NoClients(run.ops) && SubjectsApart(env, ids)
    requires j <= i <= |run.ops| && k in run.states[i].sessions && forall m: nat :: j <= m < i ==> !SignsIn(run, m, k)
    ensures k in run.states[j].sessions && ExternalUser(run.states[i], k) == ExternalUser(run.states[j], k)
    decreases i
  {
    hide Shaped, SubjectsApart, Linked, ReportsWithin, ExternalUser, Named;
    if j < i {
      EmptyShaped(env, ids);
      NamedAlong(env, ids, run, i - 1);
      OwnerStep(env, ids, run, i - 1, k);
      OwnerKept(env, ids, run, j, i - 1, k);
    }
  }

  /** A run in which two admitted pairs of different subjects share an identifier: a sync under one
      subject, a sign-in, and a sync under the other take the session to the other's record. */
  ghost predicate OwnersKept(env: Env, ids: Ids) {
    forall run, j: nat, i: nat, k ::
      FromEmpty(env, run) && RunWithin(ids, run.ops) && NoClients(run.ops) && j <= i < |run.states| && KeptOpen(run, j, i, k) ==>
        k in run.states[j].sessions && ExternalUser(run.states[i], k) == ExternalUser(run.states[j], k)
  }

  ghost predicate KeptOpen(run: Run, j: nat, i: nat, k: string)
    requires j <= i < |run.states|
  {
    |run.states| == |run.effects| + 1 && k in run.states[i].sessions && forall m: nat :: j <= m < i ==> !SignsIn(run, m, k)
  }

  /** Exactly when sessions stay with their external users, over all runs without client requests: when no
      two admitted pairs of different subjects share an identifier. */
  lemma OwnersExactly(env: Env, ids: Ids)
    requires forall t, u :: ids(t, u) ==> !Blank(t) && !Blank(u)
    ensures SubjectsApart(env, ids) <==> OwnersKept(env, ids)
  {
    hide FromEmpty, RunWithin, NoClients, PrincipalID, Blank, ExternalUser, ReportsWithin;
    if SubjectsApart(env, ids) {
      forall run, j: nat, i: nat, k | FromEmpty(env, run) && RunWithin(ids, run.ops) && NoClients(run.ops) && j <= i < |run.states| && KeptOpen(run, j, i, k)
        ensures k in run.states[j].sessions && ExternalUser(run.states[i], k) == ExternalUser(run.states[j], k)
      {
        RunLength(env, run);
        OwnerKept(env, ids, run, j, i, k);
      }
    } else {
      var t1, u1, t2, u2 :| ids(t1, u1) && ids(t2, u2) && PrincipalID(env, t1, u1) == PrincipalID(env, t2, u2) && u1 != u2;
      var run := CollisionRun(env, t1, u1, t2, u2);
      var k := "sess_";
      RunLength(env, run);
      assert RunWithin(ids, run.ops) by { ThreeReports(ids, t1, u1, t2, u2, PrincipalID(env, t1, u1)); }
      assert NoClients(run.ops) by { ThreePlain(t1, u1, t2, u2, PrincipalID(env, t1, u1)); }
      assert KeptOpen(run, 2, 3, k) && ExternalUser(run.states[2], k) == Some(u1) && ExternalUser(run.states[3], k) == Some(u2) by {
        CollisionOwners(env, run, t1, u1, t2, u2);
      }
    }
  }

  lemma ThreePlain(t1: string, u1: string, t2: string, u2: string, id: string)
    ensures NoClients([SyncOne(Report(t1, u1)), Login(id, 0, ""), SyncOne(Report(t2, u2))])
  {
  }

  lemma CollisionOwners(env: Env, run: Run, t1: string, u1: string, t2: string, u2: string)
    requires FromEmpty(env, run) && |run.ops| == 3 && run.ops[2] == SyncOne(Report(t2, u2))
    requires Collided(env, run, t1, u1, t2, u2)
    ensures KeptOpen(run, 2, 3, "sess_") && ExternalUser(run.states[2], "sess_") == Some(u1) && ExternalUser(run.states[3], "sess_") == Some(u2)
  {
    hide Apply, PrincipalID, GrantedBy, NewKey, Creator, ApprovedCode, ConsumedCode, IssuedBy;
    assert Linked(env, run, 2);
  }

  // ----- why client requests are left out -----

  const CLIENT := ClientClaims("a", "t", "", "", ["x"], 0)

  lemma ClientApplied(env: Env, s: State, claims: ClientClaims, req: TokenRequest)
    requires TrimSpace(claims.tenantID) == "t" && claims.scopes != [] && ("t" in s.tenants ==> !s.tenants["t"].status.Disabled?)
    ensures var t := Apply(env, s, TokenForClient(claims, req)); t == WithClient(env, s, "t", claims, req.now).(audits := t.audits)
  {
    hide GrantClient, WithClient, TrimSpace, Issue;
    ClientRefused(env, s, claims, req);
    var granted := GrantClient(env, s, claims, req);
    if granted.1.Ok? { IssueAudits(env, granted.0, granted.1.value, req); }
    SignedApplied(env, s, claims, req);
  }

  lemma SignedApplied(env: Env, s: State, claims: ClientClaims, req: TokenRequest)
    ensures Apply(env, s, TokenForClient(claims, req)) == SignGranted(env, GrantClient(env, s, claims, req), req).0
  {
    hide GrantClient, SignGranted;
  }

  /** The encoding of an account's identifier trims the subject. */
  lemma ClientsCollide(env: Env)
    ensures "svc_" + env.digest(Encode(["t", " a"])) == "svc_" + env.digest(Encode(["t", "a"]))
  {
    hide TrimSpace, Encode;
    EncodeTwo("t", " a");
    EncodeTwo("t", "a");
    assert " a" == [' '] + "a";
    TrimsItself("a");
  }

  /** Two clients whose subjects differ by a space have one account: a session of it opened for the one
      ends up with the other. */
  lemma ClientRenames(env: Env, req: TokenRequest) returns (run: Run)
    ensures FromEmpty(env, run)
    ensures var id := "svc_" + env.digest(Encode(["t", "a"]));
      run.ops == [TokenForClient(CLIENT, req), Login(id, 0, ""), TokenForClient(CLIENT.(subject := " a"), req)]
    ensures KeptOpen(run, 2, 3, "sess_") && ExternalUser(run.states[2], "sess_") == Some("a") && ExternalUser(run.states[3], "sess_") == Some(" a")
  {
    hide TrimSpace, Encode, WithClient, Apply, EffectOf;
    TrimsItself("t");
    ClientsCollide(env);
    var id := "svc_" + env.digest(Encode(["t", "a"]));
    var a, b, c := TokenForClient(CLIENT, req), Login(id, 0, ""), TokenForClient(CLIENT.(subject := " a"), req);
    var s0 := EMPTY_STORE;
    ClientApplied(env, s0, CLIENT, req);
    ClientSettled(env, s0, "t", CLIENT, req.now);
    var s1 := Apply(env, s0, a);
    LoginApplied(env, s1, id, 0, "");
    SignInExactly(env, s1, id, 0, "");
    var s2 := Apply(env, s1, b);
    assert "sess_" + "" == "sess_" && "sess_" in s2.sessions && s2.sessions["sess_"].principalID == id;
    ClientApplied(env, s2, c.claims, req);
    ClientSettled(env, s2, "t", c.claims, req.now);
    var s3 := Apply(env, s2, c);
    run := Run([s0, s1, s2, s3], [a, b, c], [EffectOf(env, s0, a), EffectOf(env, s1, b), EffectOf(env, s2, c)]);
    RunOfThree(env, run);
    NobodySignsIn(env, s2, c);
  }

  lemma NobodySignsIn(env: Env, s: State, op: Op)
    requires !op.Login?
    ensures EffectOf(env, s, op).signedIn.None?
  {
    hide GrantedBy, NewKey, Creator, ApprovedCode, ConsumedCode, IssuedBy;
  }
}
