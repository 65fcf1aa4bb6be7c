/** Theorems over whole runs: when sessions stay bound, who becomes active and why, and how long a
    session and the tokens made from it can live. */
module Histories {
  import opened Text
  import opened Calendar
  import opened Policies
  import opened Iam
  import opened Identity
  import opened Access
  import opened Runs

  ghost predicate StepWithin(env: Env, ids: Ids, run: Run, i: nat)
    requires IsRun(env, run) && i < |run.ops|
  {
    Within(env, ids, ReportsWithin(ids, run.ops[i]), run.effects[i], run.states[i], run.states[i + 1])
  }

  lemma {:induction false} StepAt(env: Env, ids: Ids, run: Run, i: nat)
    requires IsRun(env, run) && Shaped(run.states[0]) && i < |run.ops|
    ensures Shaped(run.states[i]) && Shaped(run.states[i + 1]) && StepWithin(env, ids, run, i)
  {
    hide Shaped, Within, Apply, EffectOf, ReportsWithin;
    if i > 0 { StepAt(env, ids, run, i - 1); }
    assert Linked(env, run, i);
    CallWithin(env, ids, run.states[i], run.ops[i]);
    WithinShaped(env, ids, ReportsWithin(ids, run.ops[i]), run.effects[i], run.states[i], run.states[i + 1]);
  }

  lemma WithinShaped(env: Env, ids: Ids, within: bool, f: Effect, s: State, t: State)
    requires Within(env, ids, within, f, s, t)
    ensures Shaped(t)
  {
    hide Shaped, Binds, StatusesWithin, CodesWithin;
  }

  lemma EmptyShaped(env: Env, ids: Ids)
    ensures Shaped(EMPTY_STORE) && Bound(env, ids, EMPTY_STORE)
  {
  }

  // ----- bound sessions -----

  /** If the admitted pairs are separate, sessions are bound in every state of every run whose reports
      stay among them. */
  lemma {:induction false} SessionsAlwaysBound(env: Env, ids: Ids, run: Run, i: nat)
    requires FromEmpty(env, run) && RunWithin(ids, run.ops) && Separate(env, ids) && i <= |run.ops|
    ensures Bound(env, ids, run.states[i])
  {
    hide ReportsWithin, Linked;
    EmptyShaped(env, ids);
    if i > 0 {
      SessionsAlwaysBound(env, ids, run, i - 1);
      StepAt(env, ids, run, i - 1);
    }
  }

  function Report(tenantID: string, subject: string): Snapshot {
    Snapshot(Tenant(tenantID, "", "", "", Active), DirectoryUser(subject, "", "", "", false, false), [], [])
  }

  lemma SyncReported(env: Env, s: State, tenantID: string, subject: string)
    requires !Blank(tenantID) && !Blank(subject) && s.registration.Open?
    requires tenantID in s.tenants ==> s.tenants[tenantID].orgName == ""
    ensures var (t, r) := SyncSnapshot(env, s, Report(tenantID, subject));
      var id := PrincipalID(env, tenantID, subject);
      && r.Ok? && r.value == Projected(env, s.principals, s.registration, Report(tenantID, subject))
      && r.value.id == id && r.value.tenantID == tenantID && r.value.externalID == subject && r.value.kind.User?
      && (id !in s.principals ==> r.value.status.Active?)
      && t.tenants == s.tenants[tenantID := SettledTenant(s.tenants, Report(tenantID, subject).tenant)] && t.principals == s.principals[id := r.value]
      && t.registration == s.registration && (!r.value.status.Disabled? ==> t.sessions == s.sessions)
  {
    hide TrimSpace, NormalizedDirectoryRoles, DirectoryTeams, SyncAudits, PrincipalID;
  }

  /** Three calls on, a session has gone from one pair's record to another's. */
  ghost predicate Collided(env: Env, run: Run, t1: string, u1: string, t2: string, u2: string)
    requires |run.states| == 4
  {
    var id, k := PrincipalID(env, t1, u1), "sess_";
    && run.states[2].sessions.Keys == run.states[3].sessions.Keys == {k} && run.states[3].sessions[k] == run.states[2].sessions[k]
    && run.states[2].sessions[k].principalID == id && run.states[2].sessions[k].tenantID == t1
    && id in run.states[2].principals && run.states[2].principals[id].externalID == u1 && run.states[2].principals[id].tenantID == t1
    && id in run.states[3].principals && run.states[3].principals[id].externalID == u2 && run.states[3].principals[id].tenantID == t2
    && run.states[3].principals[id].kind.User?
  }

  /** If two admitted pairs share an identifier, there is a run of three calls after which a session is
      still the first pair's and its record the second's. */
  lemma CollisionRun(env: Env, t1: string, u1: string, t2: string, u2: string) returns (run: Run)
    requires !Blank(t1) && !Blank(u1) && !Blank(t2) && !Blank(u2) && PrincipalID(env, t1, u1) == PrincipalID(env, t2, u2)
    ensures FromEmpty(env, run) && run.ops == [SyncOne(Report(t1, u1)), Login(PrincipalID(env, t1, u1), 0, ""), SyncOne(Report(t2, u2))]
    ensures Collided(env, run, t1, u1, t2, u2)
  {
    hide SyncSnapshot, PrincipalID, Blank, Projected, Apply, EffectOf;
    var id := PrincipalID(env, t1, u1);
    var a, b, c := SyncOne(Report(t1, u1)), Login(id, 0, ""), SyncOne(Report(t2, u2));
    var s0 := EMPTY_STORE;
    var s1 := SyncSnapshot(env, s0, Report(t1, u1)).0;
    var s2 := CreateSession(env, s1, id, 0, "").0;
    var s3 := SyncSnapshot(env, s2, Report(t2, u2)).0;
    run := Run([s0, s1, s2, s3], [a, b, c], [EffectOf(env, s0, a), EffectOf(env, s1, b), EffectOf(env, s2, c)]);
    SyncOneApplied(env, s0, Report(t1, u1));
    LoginApplied(env, s1, id, 0, "");
    SyncOneApplied(env, s2, Report(t2, u2));
    RunOfThree(env, run);
    SyncReported(env, s0, t1, u1);
    SyncReported(env, s2, t2, u2);
    var k := "sess_" + "";
    assert k == "sess_" && k in s2.sessions && s2.sessions[k].principalID == id && s2.principals[id].tenantID == t1;
    StillActive(env, s2, t2, u2);
  }

  /** If the pairs are of different tenants, that session is no longer bound. */
  lemma CollisionUnbinds(env: Env, t1: string, u1: string, t2: string, u2: string) returns (run: Run)
    requires !Blank(t1) && !Blank(u1) && !Blank(t2) && !Blank(u2)
    requires t1 != t2 && PrincipalID(env, t1, u1) == PrincipalID(env, t2, u2)
    ensures FromEmpty(env, run) && run.ops == [SyncOne(Report(t1, u1)), Login(PrincipalID(env, t1, u1), 0, ""), SyncOne(Report(t2, u2))]
    ensures !SessionsBound(run.states[3])
  {
    hide PrincipalID, Blank, Linked;
    run := CollisionRun(env, t1, u1, t2, u2);
    assert !SessionOk(run.states[3].principals, run.states[3].sessions["sess_"]);
  }

  lemma SyncOneApplied(env: Env, s: State, snap: Snapshot)
    ensures Apply(env, s, SyncOne(snap)) == SyncSnapshot(env, s, snap).0
  {
    hide SyncSnapshot;
  }

  lemma LoginApplied(env: Env, s: State, id: string, now: Time, random: string)
    ensures Apply(env, s, Login(id, now, random)) == CreateSession(env, s, id, now, random).0
  {
    hide CreateSession;
  }

  lemma RunOfThree(env: Env, run: Run)
    requires |run.ops| == |run.effects| == 3 && |run.states| == 4 && run.states[1] == Apply(env, run.states[0], run.ops[0])
    requires run.states[2] == Apply(env, run.states[1], run.ops[1]) && run.states[3] == Apply(env, run.states[2], run.ops[2])
    requires forall i :: 0 <= i < 3 ==> run.effects[i] == EffectOf(env, run.states[i], run.ops[i])
    ensures IsRun(env, run)
  {
    hide Apply, EffectOf;
  }

  lemma StillActive(env: Env, s: State, tenantID: string, subject: string)
    requires var id := PrincipalID(env, tenantID, subject); id in s.principals && s.principals[id].status.Active?
    ensures !Projected(env, s.principals, s.registration, Report(tenantID, subject)).status.Disabled?
  {
    hide NormalizedDirectoryRoles, DirectoryTeams, PrincipalID;
  }

  /** The exact condition: sessions stay bound in all runs over a set of non-blank pairs if and only if
      no two of its pairs, of different tenants, share a principal identifier. */
  lemma SessionsBoundExactly(env: Env, ids: Ids)
    requires forall t, u :: ids(t, u) ==> !Blank(t) && !Blank(u)
    ensures Separate(env, ids) <==>
      forall run, i: nat :: FromEmpty(env, run) && RunWithin(ids, run.ops) && i < |run.states| ==> SessionsBound(run.states[i])
  {
    if Separate(env, ids) {
      forall run, i: nat | FromEmpty(env, run) && RunWithin(ids, run.ops) && i < |run.states| ensures SessionsBound(run.states[i]) {
        RunLength(env, run);
        SessionsAlwaysBound(env, ids, run, i);
      }
    } else {
      var t1, u1, t2, u2 :| ids(t1, u1) && ids(t2, u2) && PrincipalID(env, t1, u1) == PrincipalID(env, t2, u2) && t1 != t2;
      var run := CollisionUnbinds(env, t1, u1, t2, u2);
      RunLength(env, run);
      assert RunWithin(ids, run.ops) by { ThreeReports(ids, t1, u1, t2, u2, PrincipalID(env, t1, u1)); }
    }
  }

  lemma RunLength(env: Env, run: Run)
    requires FromEmpty(env, run)
    ensures |run.states| == |run.ops| + 1
  {
  }

  lemma ThreeReports(ids: Ids, t1: string, u1: string, t2: string, u2: string, id: string)
    requires ids(t1, u1) && ids(t2, u2)
    ensures RunWithin(ids, [SyncOne(Report(t1, u1)), Login(id, 0, ""), SyncOne(Report(t2, u2))])
  {
  }

  // ----- status discipline -----

  predicate UserAt(s: State, id: string) {
    id in s.principals && s.principals[id].kind.User?
  }

  predicate ActiveAt(s: State, id: string) {
    UserAt(s, id) && s.principals[id].status.Active?
  }

  predicate DisabledAt(s: State, id: string) {
    UserAt(s, id) && s.principals[id].status.Disabled?
  }

  lemma UserPersists(env: Env, run: Run, i: nat, id: string)
    requires IsRun(env, run) && Shaped(run.states[0]) && i < |run.ops| && UserAt(run.states[i], id)
    ensures UserAt(run.states[i + 1], id)
    ensures StatusWithin(run.effects[i], id, run.states[i].principals[id].status, run.states[i + 1].principals[id].status)
  {
    hide Shaped, ReportsWithin, CodesWithin, Binds, Linked;
    StepAt(env, CleanIds, run, i);
  }

  /** The i-th call of the run, an administrator's, enables the user successfully: disabled before,
      active after. */
  ghost predicate EnabledAt(env: Env, run: Run, i: nat, id: string)
    requires IsRun(env, run) && i < |run.ops|
  {
    id in run.effects[i].enabled && DisabledAt(run.states[i], id) && ActiveAt(run.states[i + 1], id)
  }

  /** A disabled user stays disabled until an administrator's call enables it: approval, sign-in and
      directory synchronization never do. */
  lemma {:induction false} DisabledUntilEnabled(env: Env, run: Run, j: nat, k: nat, id: string)
    requires IsRun(env, run) && Shaped(run.states[0]) && j <= k <= |run.ops| && DisabledAt(run.states[j], id)
    ensures DisabledAt(run.states[k], id) || exists i :: j <= i < k && EnabledAt(env, run, i, id)
    decreases k
  {
    hide Shaped, Linked;
    if j < k {
      DisabledUntilEnabled(env, run, j, k - 1, id);
      if DisabledAt(run.states[k - 1], id) {
        UserPersists(env, run, k - 1, id);
        if !DisabledAt(run.states[k], id) { assert EnabledAt(env, run, k - 1, id); }
      }
    }
  }

  /** The i-th call of the run, an administrator's, makes the user active: it enables it, or approves
      it while pending. */
  ghost predicate ActivatedAt(env: Env, run: Run, i: nat, id: string)
    requires IsRun(env, run) && i < |run.ops|
  {
    && !ActiveAt(run.states[i], id) && ActiveAt(run.states[i + 1], id)
    && (id in run.effects[i].enabled
        || (id in run.effects[i].approved && (UserAt(run.states[i], id) ==> run.states[i].principals[id].status.Pending?)))
  }

  /** A user who is not active becomes active only by an administrator's call. */
  lemma {:induction false} PendingUntilGranted(env: Env, run: Run, j: nat, k: nat, id: string)
    requires IsRun(env, run) && Shaped(run.states[0]) && j <= k <= |run.ops| && UserAt(run.states[j], id) && !ActiveAt(run.states[j], id)
    ensures ActiveAt(run.states[k], id) ==> exists i :: j <= i < k && ActivatedAt(env, run, i, id)
    ensures UserAt(run.states[k], id)
    decreases k
  {
    hide Shaped, Linked;
    if j < k {
      PendingUntilGranted(env, run, j, k - 1, id);
      UserPersists(env, run, k - 1, id);
      if ActiveAt(run.states[k], id) && !ActiveAt(run.states[k - 1], id) { assert ActivatedAt(env, run, k - 1, id); }
    }
  }

  /** The i-th call of the run first projects the user, while registration is open. */
  predicate ProjectedAt(run: Run, i: nat, id: string)
    requires i + 1 < |run.states|
  {
    id !in run.states[i].principals && UserAt(run.states[i + 1], id) && run.states[i].registration.Open?
  }

  /** Every active user was active to begin with, or some call of the run first projected it while
      registration was open, or some administrator's call made it active. */
  lemma {:induction false} ActiveHasOrigin(env: Env, run: Run, k: nat, id: string)
    requires IsRun(env, run) && Shaped(run.states[0]) && k <= |run.ops| && ActiveAt(run.states[k], id)
    ensures ActiveAt(run.states[0], id) || exists i :: 0 <= i < k && (ProjectedAt(run, i, id) || ActivatedAt(env, run, i, id))
  {
    hide Shaped, Linked, ReportsWithin, CodesWithin, Binds;
    if k > 0 {
      if ActiveAt(run.states[k - 1], id) {
        ActiveHasOrigin(env, run, k - 1, id);
      } else {
        StepAt(env, CleanIds, run, k - 1);
        assert ProjectedAt(run, k - 1, id) || ActivatedAt(env, run, k - 1, id);
      }
    }
  }

  /** A disabled tenant stays disabled, and a mapped organization never changes. */
  lemma {:induction false} TenantsKeepStanding(env: Env, run: Run, j: nat, k: nat)
    requires IsRun(env, run) && Shaped(run.states[0]) && j <= k <= |run.ops|
    ensures TenantsEvolve(run.states[j].tenants, run.states[k].tenants)
    decreases k
  {
    hide Shaped, ReportsWithin, StatusesWithin, CodesWithin, Binds, Linked;
    if j < k {
      TenantsKeepStanding(env, run, j, k - 1);
      StepAt(env, CleanIds, run, k - 1);
    }
  }

  // ----- lifetimes -----

  lemma SignedInLifetime(env: Env, run: Run, i: nat)
    requires IsRun(env, run) && i < |run.ops| && run.effects[i].signedIn.Some?
    ensures run.effects[i].signedIn.value.expiresAt == run.effects[i].signedIn.value.authTime + env.sessionTTL
  {
    hide GrantedBy, NewKey, Creator, ApprovedCode, ConsumedCode, IssuedBy, Apply;
    assert Linked(env, run, i);
  }

  /** Whatever calls happen in between, a session expires one session lifetime after sign-in. */
  lemma {:induction false} SessionLifetime(env: Env, run: Run, i: nat, k: string)
    requires FromEmpty(env, run) && i <= |run.ops| && k in run.states[i].sessions
    ensures run.states[i].sessions[k].expiresAt == run.states[i].sessions[k].authTime + env.sessionTTL
  {
    hide Shaped, Linked, ReportsWithin;
    EmptyShaped(env, CleanIds);
    if i > 0 {
      StepAt(env, CleanIds, run, i - 1);
      if run.effects[i - 1].signedIn.Some? { SignedInLifetime(env, run, i - 1); }
      assert SessionWithin(run.effects[i - 1], run.states[i - 1].sessions, k, run.states[i].sessions[k]);
      if k in run.states[i - 1].sessions { SessionLifetime(env, run, i - 1, k); }
    }
  }

  lemma IssuedClaims(env: Env, s: State, g: Grant, req: TokenRequest, issued: Issued)
    requires Issue(env, s, g, req).1 == Ok(issued) && g.ttl > 0
    ensures issued.claims.expiresAt == Unix(req.now + g.ttl)
    ensures issued.claims.scopes == Jwt.CleanStrings(g.scopes)
    ensures issued.claims.audience == TrimSpace(req.audience)
    ensures issued.token == Jwt.SignClaims(env.codec, issued.claims, Jwt.MonthKey(env.codec, env.signer.secret, MonthOf(req.now)))
  {
    hide MonthOf, Jwt.ClaimsError, RoleKeys;
  }

  predicate FromSession(op: Op) {
    op.TokenForSession? || op.Delegate?
  }

  function TokenTTL(env: Env, op: Op): Duration {
    if op.Delegate? then env.agentTTL else env.internalTTL
  }

  /** A grant made to a session is for the stored, unexpired session. */
  lemma GrantedSession(env: Env, s: State, op: Op)
    requires Shaped(s) && FromSession(op) && GrantOf(env, s, op).1.Ok?
    ensures var g, sid := GrantOf(env, s, op).1.value, TrimSpace(op.sessionID);
      sid in s.sessions && g.session == s.sessions[sid] && !Expired(g.session.expiresAt, op.req.now) && g.ttl == TokenTTL(env, op)
  {
    hide ValidateSession, ScopesForActions, Shaped, Kept;
    ValidateOk(env, CleanIds, s, op.sessionID, op.req.now, op.source);
    assert ValidateSession(env, s, op.sessionID, op.req.now, op.source).1.Ok? by {
      match op {
        case TokenForSession(id, req, source) => assert GrantOf(env, s, op) == GrantSession(env, ValidateSession(env, s, id, req.now, source), req);
        case Delegate(id, runID, scopes, req, source, random) =>
          assert GrantOf(env, s, op) == GrantAgent(env, ValidateSession(env, s, id, req.now, source), runID, scopes, req, random);
      }
    }
  }

  /** End to end: over any run from an empty store, no token signed or delegated from a session
      verifies once its sign-in plus the session lifetime, the token's lifetime and the skew have
      passed. */
  lemma SessionBoundsTokens(env: Env, run: Run, i: nat, issued: Issued, v: Jwt.Verifier, n: Time)
    requires FromEmpty(env, run) && i < |run.ops| && FromSession(run.ops[i]) && run.effects[i].issued == Some(issued)
    requires TokenTTL(env, run.ops[i]) > 0 && env.sessionTTL > 0 && Jwt.Ideal(env.codec)
    requires v.skew >= 0 && n > ZERO_TIME
    requires Jwt.Verify(env.codec, v, issued.token, n).Ok?
    ensures var sid := TrimSpace(run.ops[i].sessionID);
      && sid in run.states[i].sessions
      && (run.states[i].sessions[sid].authTime >= ZERO_TIME ==>
            n < run.states[i].sessions[sid].authTime + env.sessionTTL + TokenTTL(env, run.ops[i]) + v.skew)
  {
    hide MonthOf, Jwt.Verify, Shaped, TrimSpace, StepWithin;
    EmptyShaped(env, CleanIds);
    StepAt(env, CleanIds, run, i);
    var session := IssuedFromSession(env, run, i, issued);
    SessionLifetime(env, run, i, TrimSpace(run.ops[i].sessionID));
    SignedForClaims(env, run.ops[i], issued);
    Jwt.SecretOfAccepted(env.codec, v, issued.claims, env.signer.secret, MonthOf(run.ops[i].req.now), n);
    Jwt.VerifyMonthToken(env.codec, v, issued.claims, MonthOf(run.ops[i].req.now), n);
  }

  /** The token was signed at the request's instant, for one token lifetime, with that month's key. */
  predicate SignedFor(env: Env, op: Op, issued: Issued)
    requires AsksForToken(op)
  {
    && issued.claims.expiresAt == Unix(op.req.now + TokenTTL(env, op))
    && issued.token == Jwt.SignClaims(env.codec, issued.claims, Jwt.MonthKey(env.codec, env.signer.secret, MonthOf(op.req.now)))
  }

  lemma SignedForClaims(env: Env, op: Op, issued: Issued)
    requires AsksForToken(op) && SignedFor(env, op, issued)
    ensures issued.claims.expiresAt * SECOND <= op.req.now + TokenTTL(env, op)
    ensures issued.token == Jwt.SignClaims(env.codec, issued.claims, Jwt.MonthKey(env.codec, env.signer.secret, MonthOf(op.req.now)))
  {
  }

  /** A token issued to a session: the session is stored and not expired. */
  lemma IssuedFromSession(env: Env, run: Run, i: nat, issued: Issued) returns (session: Session)
    requires IsRun(env, run) && i < |run.ops| && Shaped(run.states[i]) && FromSession(run.ops[i]) && run.effects[i].issued == Some(issued)
    requires TokenTTL(env, run.ops[i]) > 0
    ensures TrimSpace(run.ops[i].sessionID) in run.states[i].sessions && session == run.states[i].sessions[TrimSpace(run.ops[i].sessionID)]
    ensures !Expired(session.expiresAt, run.ops[i].req.now) && SignedFor(env, run.ops[i], issued)
  {
    hide GrantedBy, NewKey, Creator, ApprovedCode, ConsumedCode, GrantOf, Shaped, Issue, MonthOf, Apply;
    assert Linked(env, run, i);
    var s, op := run.states[i], run.ops[i];
    GrantedSession(env, s, op);
    session := s.sessions[TrimSpace(op.sessionID)];
    IssuedClaims(env, GrantOf(env, s, op).0, GrantOf(env, s, op).1.value, op.req, issued);
  }

  /** For a service as configured, the bound is by the internal lifetime alone, for signed and for
      delegated tokens, under the exact condition of `SettledLifetimes`. */
  lemma ConfiguredBound(cfg: Config, digest: string -> string, keyDigest: string -> string, codec: Jwt.Codec,
                        run: Run, i: nat, issued: Issued, v: Jwt.Verifier, n: Time)
    requires NewService(cfg, digest, keyDigest, codec).Ok? && (cfg.internalTTL != 1 || cfg.agentTTL == 1) && Jwt.Ideal(codec)
    requires FromEmpty(NewService(cfg, digest, keyDigest, codec).value, run) && i < |run.ops| && FromSession(run.ops[i])
    requires run.effects[i].issued == Some(issued) && v.skew >= 0 && n > ZERO_TIME && Jwt.Verify(codec, v, issued.token, n).Ok?
    ensures var env, sid := NewService(cfg, digest, keyDigest, codec).value, TrimSpace(run.ops[i].sessionID);
      && sid in run.states[i].sessions
      && (run.states[i].sessions[sid].authTime >= ZERO_TIME ==>
            n < run.states[i].sessions[sid].authTime + env.sessionTTL + env.internalTTL + v.skew)
  {
    hide TrimSpace, Jwt.Verify, Jwt.Ideal, FromEmpty;
    SettledLifetimes(cfg, digest, keyDigest, codec);
    SessionBoundsTokens(NewService(cfg, digest, keyDigest, codec).value, run, i, issued, v, n);
  }
}
