/** Projected identifiers and what they tell apart; the shape of every reachable store; when sessions
    are bound to their users; and what directory synchronization and session validation may change. */
module Identity {
  import opened Text
  import opened Calendar
  import opened Iam

  // ----- identifiers -----

  /** Distinct inputs have distinct digests. */
  ghost predicate IdealDigest(env: Env) {
    forall a, b {:trigger env.digest(a), env.digest(b)} :: env.digest(a) == env.digest(b) ==> a == b
  }

  lemma TerminatedPrefix(x: string, xs: string, y: string, ys: string)
    requires NUL !in x && NUL !in y && x + [NUL] + xs == y + [NUL] + ys
    ensures x == y && xs == ys
  {
    var s := x + [NUL] + xs;
    assert s[|x|] == NUL && s[|y|] == NUL;
    assert forall i :: 0 <= i < |x| ==> s[i] == x[i] && x[i] != NUL;
    assert forall i :: 0 <= i < |y| ==> s[i] == y[i] && y[i] != NUL;
    assert |x| == |y|;
    assert x == s[..|x|] && y == s[..|y|];
    assert xs == s[|x| + 1..] && ys == s[|y| + 1..];
  }

  ghost predicate NulFree(parts: seq<string>) {
    forall i :: 0 <= i < |parts| ==> NUL !in TrimSpace(parts[i])
  }

  predicate SameTrims(a: seq<string>, b: seq<string>) {
    |a| == |b| && forall i :: 0 <= i < |a| ==> TrimSpace(a[i]) == TrimSpace(b[i])
  }

  /** The NUL-terminated encoding tells NUL-free parts apart exactly by their trims. */
  lemma {:induction false} EncodeExactly(a: seq<string>, b: seq<string>)
    requires NulFree(a) && NulFree(b)
    ensures Encode(a) == Encode(b) <==> SameTrims(a, b)
  {
    hide TrimSpace;
    if a != [] && b != [] {
      var x, y := TrimSpace(a[0]), TrimSpace(b[0]);
      EncodeExactly(a[1..], b[1..]);
      if Encode(a) == Encode(b) { TerminatedPrefix(x, Encode(a[1..]), y, Encode(b[1..])); }
      assert SameTrims(a, b) ==> SameTrims(a[1..], b[1..]);
      assert SameTrims(a[1..], b[1..]) && x == y ==> SameTrims(a, b) by {
        assert forall i :: 0 < i < |a| ==> a[i] == a[1..][i - 1];
        assert forall i :: 0 < i < |b| ==> b[i] == b[1..][i - 1];
      }
    }
  }

  /** Two (tenant, subject) pairs share a principal identifier exactly when their trims agree. */
  lemma PrincipalIDExactly(env: Env, t1: string, u1: string, t2: string, u2: string)
    requires IdealDigest(env) && NulFree([t1, u1]) && NulFree([t2, u2])
    ensures PrincipalID(env, t1, u1) == PrincipalID(env, t2, u2) <==> TrimSpace(t1) == TrimSpace(t2) && TrimSpace(u1) == TrimSpace(u2)
  {
    hide TrimSpace;
    var d1, d2 := env.digest(Encode([t1, u1])), env.digest(Encode([t2, u2]));
    assert PrincipalID(env, t1, u1)[10..] == d1 && PrincipalID(env, t2, u2)[10..] == d2;
    EncodeExactly([t1, u1], [t2, u2]);
    assert [t1, u1][0] == t1 && [t1, u1][1] == u1;
    assert [t2, u2][0] == t2 && [t2, u2][1] == u2;
  }

  lemma EncodeTwo(x: string, y: string)
    ensures Encode([x, y]) == TrimSpace(x) + [NUL] + (TrimSpace(y) + [NUL])
  {
    assert [x, y][1..] == [y] && [y][1..] == [];
    assert Encode([y]) == TrimSpace(y) + [NUL] + Encode([]) == TrimSpace(y) + [NUL];
    assert Encode([x, y]) == TrimSpace(x) + [NUL] + Encode([y]);
  }

  lemma TrimsItself(s: string)
    requires s != "" && !IsSpace(s[0]) && !IsSpace(s[|s| - 1])
    ensures TrimSpace(s) == s && TrimSpace([' '] + s) == s
  {
    assert ([' '] + s)[1..] == s;
  }

  /** Both premises of telling pairs apart are needed: outer white space is lost, and a NUL inside a
      part moves the boundary between two. */
  lemma PartsCollide(env: Env)
    ensures PrincipalID(env, " t", "u") == PrincipalID(env, "t", "u")
    ensures PrincipalID(env, "a\0b", "c") == PrincipalID(env, "a", "b\0c")
  {
    hide TrimSpace, Encode;
    EncodeTwo(" t", "u");
    EncodeTwo("t", "u");
    EncodeTwo("a\0b", "c");
    EncodeTwo("a", "b\0c");
    assert " t" == [' '] + "t";
    TrimsItself("t");
    TrimsItself("a\0b");
    TrimsItself("c");
    TrimsItself("a");
    TrimsItself("b\0c");
    assert "a\0b" + [NUL] + ("c" + [NUL]) == "a" + [NUL] + ("b\0c" + [NUL]);
  }

  /** The three families of identifiers never meet. */
  lemma PrefixesDisjoint(id: string)
    ensures !(PRINCIPAL_PREFIX <= id && SERVICE_PREFIX <= id)
    ensures !(PRINCIPAL_PREFIX <= id && AGENT_PREFIX <= id)
    ensures !(SERVICE_PREFIX <= id && AGENT_PREFIX <= id)
  {
    assert PRINCIPAL_PREFIX[0] == 'p' && SERVICE_PREFIX[0] == 's' && AGENT_PREFIX[0] == 'a';
  }

  lemma ProjectedPrefixes(env: Env, tenantID: string, subject: string)
    ensures PRINCIPAL_PREFIX <= PrincipalID(env, tenantID, subject)
    ensures SERVICE_PREFIX <= ServiceID(env, tenantID, subject)
  {
    assert "principal" + "_" == PRINCIPAL_PREFIX && "svc" + "_" == SERVICE_PREFIX;
  }

  // ----- the shape of a store: no premise on any input -----

  /** Records are stored under their own ids; the ids of users, and only theirs, are projected ones. */
  predicate RecordShaped(id: string, p: Principal) {
    p.id == id && (p.kind.User? <==> PRINCIPAL_PREFIX <= id)
  }

  ghost predicate PrincipalsShaped(principals: map<string, Principal>) {
    forall id :: id in principals ==> RecordShaped(id, principals[id])
  }

  ghost predicate SessionsShaped(principals: map<string, Principal>, sessions: map<string, Session>) {
    forall k :: k in sessions ==> sessions[k].id == k && sessions[k].principalID in principals
  }

  ghost predicate AccountsShaped(accounts: map<string, Account>) {
    forall id :: id in accounts ==> SERVICE_PREFIX <= id
  }

  ghost predicate CodesKeyed(codes: map<string, DeviceCode>) {
    forall c :: c in codes ==> codes[c].deviceCode == c
  }

  ghost predicate Shaped(s: State) {
    PrincipalsShaped(s.principals) && SessionsShaped(s.principals, s.sessions) && AccountsShaped(s.accounts) && CodesKeyed(s.deviceCodes)
  }

  // ----- bound sessions -----

  /** A user's session is in the user's tenant, and the user is not disabled. */
  predicate SessionOk(principals: map<string, Principal>, session: Session) {
    && session.principalID in principals
    && (principals[session.principalID].kind.User? ==>
          principals[session.principalID].tenantID == session.tenantID && !principals[session.principalID].status.Disabled?)
  }

  ghost predicate SessionsBound(s: State) {
    forall k :: k in s.sessions ==> SessionOk(s.principals, s.sessions[k])
  }

  /** The (tenant, subject) pairs that directory reports may mention. */
  type Ids = (string, string) -> bool

  /** No two admitted pairs of different tenants share a principal identifier. */
  ghost predicate Separate(env: Env, ids: Ids) {
    forall t1, u1, t2, u2 {:trigger ids(t1, u1), ids(t2, u2)} ::
      ids(t1, u1) && ids(t2, u2) && PrincipalID(env, t1, u1) == PrincipalID(env, t2, u2) ==> t1 == t2
  }

  /** A user record carries the identifier of its own tenant and subject, an admitted pair. */
  predicate UserOk(env: Env, ids: Ids, p: Principal) {
    p.kind.User? ==> ids(p.tenantID, p.externalID) && p.id == PrincipalID(env, p.tenantID, p.externalID)
  }

  ghost predicate UsersOk(env: Env, ids: Ids, principals: map<string, Principal>) {
    forall id :: id in principals ==> UserOk(env, ids, principals[id])
  }

  ghost predicate Bound(env: Env, ids: Ids, s: State) {
    UsersOk(env, ids, s.principals) && SessionsBound(s)
  }

  /** The change from `s` to `t` keeps users named by their owners and sessions bound, if `within`: its
      reports stay in `ids`. */
  ghost predicate Binds(env: Env, ids: Ids, within: bool, s: State, t: State) {
    within ==>
      && (UsersOk(env, ids, s.principals) ==> UsersOk(env, ids, t.principals))
      && (Separate(env, ids) && Bound(env, ids, s) ==> Bound(env, ids, t))
  }

  ghost predicate SourceWithin(ids: Ids, source: Source) {
    forall subject, snap :: source(subject).Ok? && snap in source(subject).value ==> ids(snap.tenant.id, snap.user.id)
  }

  /** Trimmed, NUL-free, non-empty identifiers. */
  predicate CleanIds(tenantID: string, subject: string) {
    Clean(tenantID) && Clean(subject)
  }

  lemma CleanExactly(env: Env, t1: string, u1: string, t2: string, u2: string)
    requires IdealDigest(env) && CleanIds(t1, u1) && CleanIds(t2, u2) && PrincipalID(env, t1, u1) == PrincipalID(env, t2, u2)
    ensures t1 == t2 && u1 == u2
  {
    hide TrimSpace, PrincipalID;
    PrincipalIDExactly(env, t1, u1, t2, u2);
  }

  /** Clean identifiers are separate under an ideal digest. */
  lemma CleanSeparate(env: Env)
    requires IdealDigest(env)
    ensures Separate(env, CleanIds)
  {
    hide CleanIds, PrincipalID;
    forall t1, u1, t2, u2 | CleanIds(t1, u1) && CleanIds(t2, u2) && PrincipalID(env, t1, u1) == PrincipalID(env, t2, u2) ensures t1 == t2 {
      CleanExactly(env, t1, u1, t2, u2);
    }
  }

  // ----- background change: what synchronization and validation may do -----

  ghost predicate TenantsEvolve(a: map<string, Tenant>, b: map<string, Tenant>) {
    forall id :: id in a ==>
      && id in b
      && (a[id].status.Disabled? ==> b[id].status.Disabled?)
      && (a[id].orgName != "" ==> b[id].orgName == a[id].orgName)
  }

  /** Known principals keep their kind and can only become disabled; new ones are active only while
      registration is open. */
  ghost predicate PrincipalsEvolve(a: map<string, Principal>, b: map<string, Principal>, registration: Registration) {
    && (forall id :: id in a ==> id in b && a[id].kind == b[id].kind && (b[id].status == a[id].status || b[id].status.Disabled?))
    && (forall id :: id in a && !a[id].kind.User? ==> b[id].externalID == a[id].externalID)
    && (forall id :: id in b && id !in a ==> b[id].kind.User? && (b[id].status.Active? ==> registration.Open?))
  }

  ghost predicate SessionsEvolve(a: map<string, Session>, b: map<string, Session>) {
    forall k :: k in b ==> k in a && b[k] == a[k]
  }

  ghost predicate Evolves(s: State, t: State) {
    && TenantsEvolve(s.tenants, t.tenants)
    && PrincipalsEvolve(s.principals, t.principals, s.registration)
    && SessionsEvolve(s.sessions, t.sessions)
    && t.apiKeys == s.apiKeys && t.deviceCodes == s.deviceCodes && t.accounts == s.accounts && t.agentRuns == s.agentRuns
    && t.policy == s.policy && t.registration == s.registration
    && s.audits <= t.audits
  }

  /** What every background change keeps. */
  ghost predicate Kept(env: Env, ids: Ids, within: bool, s: State, t: State) {
    Shaped(t) && Evolves(s, t) && Binds(env, ids, within, s, t)
  }

  lemma KeptSame(env: Env, ids: Ids, within: bool, s: State)
    requires Shaped(s)
    ensures Kept(env, ids, within, s, s)
  {
  }

  lemma KeptShaped(env: Env, ids: Ids, within: bool, s: State, t: State)
    requires Kept(env, ids, within, s, t)
    ensures Shaped(t)
  {
    hide Shaped, Evolves, Binds;
  }

  lemma KeptThen(env: Env, ids: Ids, within: bool, s: State, mid: State, t: State)
    requires Kept(env, ids, within, s, mid) && Kept(env, ids, within, mid, t)
    ensures Kept(env, ids, within, s, t)
  {
    hide Shaped, Bound, Separate;
  }

  /** The state a synchronized snapshot leaves, before the audits. */
  function Stored(s: State, snap: Snapshot, p: Principal): State {
    s.(tenants := s.tenants[snap.tenant.id := SettledTenant(s.tenants, snap.tenant)],
       principals := s.principals[p.id := p],
       sessions := if p.status.Disabled? then WithoutSessionsOf(s.sessions, p.id) else s.sessions)
  }

  /** The record under the projected id is in another tenant, has a session, and is not disabled by
      the sync. */
  ghost predicate MovesSession(s: State, p: Principal) {
    && p.id in s.principals && s.principals[p.id].tenantID != p.tenantID && !p.status.Disabled?
    && exists k :: k in s.sessions && s.sessions[k].principalID == p.id
  }

  /** Storing a user keeps sessions bound exactly when it moves no session's user to another tenant. */
  lemma StoredBindsExactly(s: State, snap: Snapshot, p: Principal)
    requires Shaped(s) && SessionsBound(s) && p.kind.User? && RecordShaped(p.id, p)
    ensures SessionsBound(Stored(s, snap, p)) <==> !MovesSession(s, p)
  {
    hide SettledTenant;
    var t := Stored(s, snap, p);
    forall k | k in t.sessions && !MovesSession(s, p) ensures SessionOk(t.principals, t.sessions[k]) {
      assert k in s.sessions && SessionOk(s.principals, s.sessions[k]);
    }
    if MovesSession(s, p) {
      var k :| k in s.sessions && s.sessions[k].principalID == p.id;
      assert SessionOk(s.principals, s.sessions[k]) && !SessionOk(t.principals, t.sessions[k]);
    }
  }

  /** A sync keeps sessions bound if and only if the record under the projected id, when it is in
      another tenant, has no session or becomes disabled. */
  lemma SyncBindsExactly(env: Env, s: State, snap: Snapshot)
    requires Shaped(s) && SessionsBound(s)
    ensures var (t, r) := SyncSnapshot(env, s, snap);
      SessionsBound(t) <==> !(r.Ok? && MovesSession(s, Projected(env, s.principals, s.registration, snap)))
  {
    hide TrimSpace, Projected, SyncAudits, Shaped;
    ProjectedShaped(env, s, snap);
    StoredBindsExactly(s, snap, Projected(env, s.principals, s.registration, snap));
  }

  lemma ProjectedShaped(env: Env, s: State, snap: Snapshot)
    ensures var p := Projected(env, s.principals, s.registration, snap);
      && RecordShaped(p.id, p) && p.kind.User? && p.tenantID == snap.tenant.id && p.externalID == snap.user.id
      && p.id == PrincipalID(env, snap.tenant.id, snap.user.id)
      && (p.id in s.principals && s.principals[p.id].id != "" ==> p.status == s.principals[p.id].status || p.status.Disabled?)
      && (p.id !in s.principals && p.status.Active? ==> s.registration.Open?)
      && p.id != ""
  {
    hide NormalizedDirectoryRoles;
    ProjectedPrefixes(env, snap.tenant.id, snap.user.id);
  }

  lemma StoredEvolves(s: State, snap: Snapshot, p: Principal, t: State)
    requires Shaped(s) && p.kind.User? && RecordShaped(p.id, p) && OrgAllowed(s.tenants, snap.tenant)
    requires p.id in s.principals ==> p.status == s.principals[p.id].status || p.status.Disabled?
    requires p.id !in s.principals && p.status.Active? ==> s.registration.Open?
    requires t == Stored(s, snap, p).(audits := t.audits) && s.audits <= t.audits
    ensures Shaped(t) && Evolves(s, t)
  {
    if p.id in s.principals { assert RecordShaped(p.id, s.principals[p.id]); }
  }

  lemma StoredBinds(env: Env, ids: Ids, s: State, snap: Snapshot, p: Principal)
    requires Shaped(s) && Separate(env, ids) && Bound(env, ids, s) && p.kind.User? && RecordShaped(p.id, p) && UserOk(env, ids, p)
    ensures Bound(env, ids, Stored(s, snap, p))
  {
    hide Stored;
    StoredBindsExactly(s, snap, p);
    if p.id in s.principals { assert RecordShaped(p.id, s.principals[p.id]) && UserOk(env, ids, s.principals[p.id]); }
    SyncedUsers(env, ids, s, snap, p);
  }

  lemma SyncedUsers(env: Env, ids: Ids, s: State, snap: Snapshot, p: Principal)
    requires UsersOk(env, ids, s.principals) && UserOk(env, ids, p)
    ensures UsersOk(env, ids, Stored(s, snap, p).principals)
  {
    hide UserOk;
  }

  lemma SyncSnapshotOk(env: Env, ids: Ids, s: State, snap: Snapshot)
    requires Shaped(s)
    ensures var (t, r) := SyncSnapshot(env, s, snap);
      && Kept(env, ids, ids(snap.tenant.id, snap.user.id), s, t)
      && (r.Ok? ==> RecordShaped(r.value.id, r.value) && r.value.id in t.principals)
      && (r.Ok? && ids(snap.tenant.id, snap.user.id) ==> UserOk(env, ids, r.value))
  {
    hide Projected, SyncAudits;
    var (t, r) := SyncSnapshot(env, s, snap);
    KeptSame(env, ids, true, s);
    if r.Ok? {
      var p := Projected(env, s.principals, s.registration, snap);
      ProjectedShaped(env, s, snap);
      assert p.id in s.principals ==> s.principals[p.id].id == p.id by { OwnID(s, p.id); }
      assert t == Stored(s, snap, p).(audits := t.audits) && s.audits <= t.audits by { SyncIsSynced(env, s, snap); }
      StoredEvolves(s, snap, p, t);
      if ids(snap.tenant.id, snap.user.id) && Separate(env, ids) && Bound(env, ids, s) { StoredBinds(env, ids, s, snap, p); }
      AuditsDoNotBind(env, ids, Stored(s, snap, p), t);
    }
  }

  lemma OwnID(s: State, id: string)
    requires Shaped(s)
    ensures id in s.principals ==> s.principals[id].id == id
  {
    assert id in s.principals ==> RecordShaped(id, s.principals[id]);
  }

  lemma SyncIsSynced(env: Env, s: State, snap: Snapshot)
    requires SyncSnapshot(env, s, snap).1.Ok?
    ensures var (t, r) := SyncSnapshot(env, s, snap);
      r.value == Projected(env, s.principals, s.registration, snap) && OrgAllowed(s.tenants, snap.tenant)
      && t == Stored(s, snap, r.value).(audits := t.audits) && s.audits <= t.audits
  {
    hide Projected, SyncAudits;
  }

  lemma AuditsDoNotBind(env: Env, ids: Ids, s: State, t: State)
    requires t == s.(audits := t.audits)
    ensures Bound(env, ids, s) ==> Bound(env, ids, t)
  {
    hide UsersOk, SessionOk;
  }

  lemma {:induction false} SyncAllOk(env: Env, ids: Ids, within: bool, s: State, snaps: seq<Snapshot>)
    requires Shaped(s) && (within ==> forall snap :: snap in snaps ==> ids(snap.tenant.id, snap.user.id))
    ensures var (t, r) := SyncAll(env, s, snaps);
      && Kept(env, ids, within, s, t)
      && (r.Ok? ==> forall p :: p in r.value ==> RecordShaped(p.id, p) && p.id in t.principals && (within ==> UserOk(env, ids, p)))
    decreases |snaps|
  {
    hide SyncSnapshot, Shaped, Binds;
    KeptSame(env, ids, within, s);
    if snaps != [] {
      SyncSnapshotOk(env, ids, s, snaps[0]);
      var (s1, r) := SyncSnapshot(env, s, snaps[0]);
      assert Kept(env, ids, within, s, s1) by { assert within ==> ids(snaps[0].tenant.id, snaps[0].user.id); Weaker(env, ids, within, s, s1, snaps[0]); }
      if r.Ok? {
        SyncAllOk(env, ids, within, s1, snaps[1..]);
        KeptThen(env, ids, within, s, s1, SyncAll(env, s1, snaps[1..]).0);
      }
    }
  }

  lemma Weaker(env: Env, ids: Ids, within: bool, s: State, t: State, snap: Snapshot)
    requires Kept(env, ids, ids(snap.tenant.id, snap.user.id), s, t) && (within ==> ids(snap.tenant.id, snap.user.id))
    ensures Kept(env, ids, within, s, t)
  {
    hide Shaped, Evolves, Bound, Separate;
  }

  lemma SyncDirectoryUserOk(env: Env, ids: Ids, s: State, source: Source, subject: string)
    requires Shaped(s)
    ensures var (t, r) := SyncDirectoryUser(env, s, source, subject);
      && Kept(env, ids, SourceWithin(ids, source), s, t)
      && (r.Ok? ==> forall p :: p in r.value ==> RecordShaped(p.id, p) && p.id in t.principals && (SourceWithin(ids, source) ==> UserOk(env, ids, p)))
  {
    hide SyncAll, Kept, UserOk, TrimSpace;
    KeptSame(env, ids, SourceWithin(ids, source), s);
    if source(subject).Ok? { SyncAllOk(env, ids, SourceWithin(ids, source), s, source(subject).value); }
  }

  lemma RevokedBinds(env: Env, ids: Ids, s: State, id: string)
    requires Shaped(s) && id in s.principals && Bound(env, ids, s)
    ensures Bound(env, ids, Revoked(s, id))
  {
    hide PrincipalID;
    var t := Revoked(s, id);
    assert RecordShaped(id, s.principals[id]);
    forall k | k in t.sessions ensures SessionOk(t.principals, t.sessions[k]) {
      assert SessionOk(s.principals, s.sessions[k]);
    }
  }

  lemma RevokedShaped(s: State, id: string)
    requires Shaped(s) && id in s.principals
    ensures Shaped(Revoked(s, id))
  {
    assert RecordShaped(id, s.principals[id]);
  }

  lemma RevokedEvolves(s: State, id: string)
    requires id in s.principals
    ensures Evolves(s, Revoked(s, id))
  {
  }

  lemma RevokedOk(env: Env, ids: Ids, within: bool, s: State, id: string, t: State)
    requires Shaped(s) && id in s.principals && t == Revoked(s, id).(audits := t.audits) && s.audits <= t.audits
    ensures Kept(env, ids, within, s, t)
  {
    hide Bound, Separate, PrincipalsShaped, SessionsShaped, AccountsShaped, CodesKeyed, TenantsEvolve, PrincipalsEvolve, SessionsEvolve, UsersOk;
    RevokedShaped(s, id);
    RevokedEvolves(s, id);
    RevokedNamed(env, ids, s, id);
    if Bound(env, ids, s) {
      RevokedBinds(env, ids, s, id);
      AuditsDoNotBind(env, ids, Revoked(s, id), t);
    }
  }

  lemma RevokedNamed(env: Env, ids: Ids, s: State, id: string)
    requires id in s.principals
    ensures UsersOk(env, ids, s.principals) ==> UsersOk(env, ids, Revoked(s, id).principals)
  {
    hide PrincipalID;
    if UsersOk(env, ids, s.principals) { assert UserOk(env, ids, s.principals[id]); }
  }

  lemma {:induction false} FindByIDOk(ps: seq<Principal>, id: string)
    ensures FindByID(ps, id).Some? <==> exists p :: p in ps && p.id == id
    ensures FindByID(ps, id).Some? ==> FindByID(ps, id).value in ps && FindByID(ps, id).value.id == id
  {
    if ps != [] {
      FindByIDOk(ps[1..], id);
      assert ps == [ps[0]] + ps[1..];
    }
  }

  lemma RefreshOk(env: Env, ids: Ids, s: State, p: Principal, source: Source)
    requires Shaped(s) && p.id in s.principals
    ensures var (t, r) := RefreshDirectoryPrincipal(env, s, p, source);
      && Kept(env, ids, SourceWithin(ids, source), s, t)
      && (r.Ok? ==> r.value.id == p.id && RecordShaped(p.id, r.value) && (SourceWithin(ids, source) ==> UserOk(env, ids, r.value)))
  {
    hide SyncDirectoryUser, Shaped, UserOk, SourceWithin, WithoutSessionsOf, Binds, SessionsEvolve, TenantsEvolve;
    SyncDirectoryUserOk(env, ids, s, source, p.externalID);
    var (s1, synced) := SyncDirectoryUser(env, s, source, p.externalID);
    if synced.Ok? {
      FindByIDOk(synced.value, p.id);
      if FindByID(synced.value, p.id).None? {
        var t := RevokeDirectoryPrincipal(s1, p).0;
        RevokedOk(env, ids, SourceWithin(ids, source), s1, p.id, t);
        KeptThen(env, ids, SourceWithin(ids, source), s, s1, t);
      }
    }
  }

  /** What a successful validation returns: the stored session, not expired, and the principal it
      names, neither disabled nor pending. */
  ghost predicate ValidFor(s: State, t: State, v: Valid, now: Time) {
    && v.session.id in s.sessions && v.session == s.sessions[v.session.id] && !Expired(v.session.expiresAt, now)
    && v.principal.id == v.session.principalID && v.principal.id in t.principals && RecordShaped(v.principal.id, v.principal)
    && !v.principal.status.Disabled? && !v.principal.status.Pending?
  }

  lemma ValidateOk(env: Env, ids: Ids, s: State, sessionID: string, now: Time, source: Source)
    requires Shaped(s)
    ensures var (t, r) := ValidateSession(env, s, sessionID, now, source);
      && Kept(env, ids, SourceWithin(ids, source), s, t)
      && (r.Ok? ==> r.value.session.id == TrimSpace(sessionID) && ValidFor(s, t, r.value, now))
      && (r.Ok? && SourceWithin(ids, source) && Bound(env, ids, s) ==> UserOk(env, ids, r.value.principal))
  {
    hide RefreshDirectoryPrincipal, TrimSpace, Evolves;
    KeptSame(env, ids, SourceWithin(ids, source), s);
    var sid := TrimSpace(sessionID);
    if sid in s.sessions {
      ExpiredOk(env, ids, SourceWithin(ids, source), s, sid);
      var p := s.principals[s.sessions[sid].principalID];
      assert RecordShaped(p.id, p);
      RefreshOk(env, ids, s, p, source);
      KeptPrincipals(env, ids, SourceWithin(ids, source), s, RefreshDirectoryPrincipal(env, s, p, source).0, p.id);
    }
  }

  lemma KeptPrincipals(env: Env, ids: Ids, within: bool, s: State, t: State, id: string)
    requires Kept(env, ids, within, s, t) && id in s.principals
    ensures id in t.principals
  {
    hide Binds;
  }

  lemma ExpiredOk(env: Env, ids: Ids, within: bool, s: State, id: string)
    requires Shaped(s)
    ensures Kept(env, ids, within, s, s.(sessions := s.sessions - {id}))
  {
    hide PrincipalsShaped;
  }
}
