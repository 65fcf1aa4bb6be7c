/** The whole result of a reconciliation: a plan collected along the walk, with the last report about
    an identifier winning; exactly when the order of the walk does not matter; and then convergence to
    the directory and a fixpoint. */
module Reconcile {
  import opened Text
  import opened Iam
  import opened Identity
  import opened Casdoor
  import opened Walks
  import opened Outcomes

  // ----- plans -----

  /** What a walk stores: tenants, the last snapshot about each identifier, and the identifiers it
      disabled, by revocation or by a report. */
  datatype Plan = Plan(tenants: map<string, Tenant>, projected: map<string, Snapshot>, revoked: set<string>)

  const EMPTY_PLAN := Plan(map[], map[], {})

  function AddSnapshot(env: Env, plan: Plan, snap: Snapshot): Plan {
    Plan(plan.tenants[snap.tenant.id := snap.tenant], plan.projected[PID(env, snap) := snap],
         plan.revoked + if snap.user.disabled then {PID(env, snap)} else {})
  }

  function AddAll(env: Env, plan: Plan, snaps: seq<Snapshot>): Plan
    decreases |snaps|
  {
    if snaps == [] then plan else AddAll(env, AddSnapshot(env, plan, snaps[0]), snaps[1..])
  }

  function AddRevoked(plan: Plan, ids: set<string>): Plan {
    plan.(revoked := plan.revoked + ids)
  }

  function Answer(ms: seq<Mapping>, fetch: Fetch, u: string): seq<Snapshot> {
    var r := SyncUser(ms, fetch, u);
    if r.Ok? then r.value else []
  }

  /** The stored records of a subject that it loses: in mapped tenants, and no longer reported. */
  function LostBy(env: Env, ms: seq<Mapping>, fetch: Fetch, s: State, u: string): set<string> {
    set id | id in s.principals && s.principals[id].externalID == u && Managed(ms, s.principals[id].tenantID)
             && (forall snap :: snap in Answer(ms, fetch, u) ==> PID(env, snap) != id)
  }

  function WalkPlan(env: Env, ms: seq<Mapping>, fetch: Fetch, s: State, order: seq<string>): Plan
    decreases |order|
  {
    if order == [] then EMPTY_PLAN
    else
      var u := order[|order| - 1];
      AddRevoked(AddAll(env, WalkPlan(env, ms, fetch, s, order[..|order| - 1]), Answer(ms, fetch, u)), LostBy(env, ms, fetch, s, u))
  }

  ghost function PlannedTenants(s: State, plan: Plan): map<string, Tenant> {
    map t | t in s.tenants.Keys + plan.tenants.Keys ::
      if t in plan.tenants then SettledTenant(s.tenants, plan.tenants[t]) else s.tenants[t]
  }

  ghost function ProjectedOr(env: Env, s: State, plan: Plan, id: string): Principal
    requires id in s.principals || id in plan.projected
  {
    if id in plan.projected then Projected(env, s.principals, s.registration, plan.projected[id]) else s.principals[id]
  }

  ghost function PlannedPrincipal(env: Env, s: State, plan: Plan, id: string): Principal
    requires id in s.principals || id in plan.projected
  {
    var p := ProjectedOr(env, s, plan, id);
    if id in plan.revoked then p.(status := Disabled) else p
  }

  ghost function PlannedPrincipals(env: Env, s: State, plan: Plan): map<string, Principal> {
    map id | id in s.principals.Keys + plan.projected.Keys :: PlannedPrincipal(env, s, plan, id)
  }

  ghost predicate Killed(env: Env, s: State, plan: Plan, id: string) {
    id in plan.revoked || (id in plan.projected && Projected(env, s.principals, s.registration, plan.projected[id]).status.Disabled?)
  }

  ghost function PlannedSessions(env: Env, s: State, plan: Plan): map<string, Session> {
    map k | k in s.sessions && !Killed(env, s, plan, s.sessions[k].principalID) :: s.sessions[k]
  }

  /** `t` is `s` with the plan carried out; only the audit trail is left open. */
  ghost predicate CarriedOut(env: Env, s: State, plan: Plan, t: State) {
    && t.tenants == PlannedTenants(s, plan)
    && t.principals == PlannedPrincipals(env, s, plan)
    && t.sessions == PlannedSessions(env, s, plan)
    && t == s.(tenants := t.tenants, principals := t.principals, sessions := t.sessions, audits := t.audits)
  }

  /** Entries stand under their own identifiers, disabling reports count as revoked, and only stored or
      projected records are revoked. */
  ghost predicate Sane(env: Env, s: State, plan: Plan) {
    && (forall t :: t in plan.tenants ==> plan.tenants[t].id == t && plan.tenants[t].status.Active?)
    && (forall id :: id in plan.projected ==> PID(env, plan.projected[id]) == id && (plan.projected[id].user.disabled ==> id in plan.revoked))
    && plan.revoked <= s.principals.Keys + plan.projected.Keys
  }

  // ----- a walk carries out its plan -----

  lemma TenantsAfterSync(env: Env, s: State, plan: Plan, snap: Snapshot)
    requires Sane(env, s, plan) && snap.tenant.status.Active?
    ensures PlannedTenants(s, plan)[snap.tenant.id := SettledTenant(PlannedTenants(s, plan), snap.tenant)]
         == PlannedTenants(s, AddSnapshot(env, plan, snap))
  {
    hide PID;
  }

  lemma ProjectedAfterPlan(env: Env, s: State, plan: Plan, snap: Snapshot)
    requires Shaped(s) && Sane(env, s, plan)
    ensures var p := Projected(env, s.principals, s.registration, snap);
      Projected(env, PlannedPrincipals(env, s, plan), s.registration, snap)
        == if PID(env, snap) in plan.revoked then p.(status := Disabled) else p
  {
    hide PrincipalID, NormalizedDirectoryRoles, DirectoryTeams, SessionsShaped;
    var id := PID(env, snap);
    assert id != "" by { ProjectedPrefixes(env, snap.tenant.id, snap.user.id); }
    OwnID(s, id);
    if id in plan.projected || id in s.principals {
      assert PlannedPrincipal(env, s, plan, id).id == id;
    }
  }

  lemma PrincipalsAfterSync(env: Env, s: State, plan: Plan, snap: Snapshot)
    requires Shaped(s) && Sane(env, s, plan)
    ensures PlannedPrincipals(env, s, plan)[PID(env, snap) := Projected(env, PlannedPrincipals(env, s, plan), s.registration, snap)]
         == PlannedPrincipals(env, s, AddSnapshot(env, plan, snap))
  {
    hide Projected, PID, Shaped, Sane, ProjectedStatus;
    ProjectedAfterPlan(env, s, plan, snap);
    PlannedReport(env, s, plan, snap);
    ghost var id, more := PID(env, snap), AddSnapshot(env, plan, snap);
    forall k | k in s.principals.Keys + plan.projected.Keys && k != id
      ensures PlannedPrincipal(env, s, more, k) == PlannedPrincipal(env, s, plan, k)
    {
    }
  }

  lemma PlannedReport(env: Env, s: State, plan: Plan, snap: Snapshot)
    ensures var p := Projected(env, s.principals, s.registration, snap);
      PlannedPrincipal(env, s, AddSnapshot(env, plan, snap), PID(env, snap))
        == if PID(env, snap) in plan.revoked then p.(status := Disabled) else p
  {
    hide Projected, PID;
    StatusOfReport(env, s, snap);
  }

  lemma SessionsAfterSync(env: Env, s: State, plan: Plan, snap: Snapshot)
    requires Shaped(s) && Sane(env, s, plan)
    ensures var sessions := PlannedSessions(env, s, plan);
      (if Projected(env, PlannedPrincipals(env, s, plan), s.registration, snap).status.Disabled?
       then WithoutSessionsOf(sessions, PID(env, snap)) else sessions)
        == PlannedSessions(env, s, AddSnapshot(env, plan, snap))
  {
    hide Projected, PID, Shaped;
    ProjectedAfterPlan(env, s, plan, snap);
    StatusOfReport(env, s, snap);
    var id, after := PID(env, snap), AddSnapshot(env, plan, snap);
    var gone := Projected(env, PlannedPrincipals(env, s, plan), s.registration, snap).status.Disabled?;
    forall k | k in s.sessions ensures Killed(env, s, after, s.sessions[k].principalID) <==> Killed(env, s, plan, s.sessions[k].principalID) || (gone && s.sessions[k].principalID == id) {
      if id in plan.projected { StatusOfReport(env, s, plan.projected[id]); }
    }
  }

  lemma StatusOfReport(env: Env, s: State, snap: Snapshot)
    ensures Projected(env, s.principals, s.registration, snap).status == ProjectedStatus(s.principals, s.registration, PID(env, snap), snap.user.disabled)
  {
    hide NormalizedDirectoryRoles, DirectoryTeams;
  }

  /** A successful sync carries out one more entry of the plan. */
  lemma SyncCarries(env: Env, s: State, plan: Plan, t: State, snap: Snapshot)
    requires Shaped(s) && Sane(env, s, plan) && CarriedOut(env, s, plan, t) && snap.tenant.status.Active? && SyncSnapshot(env, t, snap).1.Ok?
    ensures Sane(env, s, AddSnapshot(env, plan, snap)) && CarriedOut(env, s, AddSnapshot(env, plan, snap), SyncSnapshot(env, t, snap).0)
  {
    hide Projected, PlannedTenants, PlannedPrincipals, PlannedSessions, OrgAllowed, SyncAudits, Shaped, PID, Blank;
    TenantsAfterSync(env, s, plan, snap);
    PrincipalsAfterSync(env, s, plan, snap);
    SessionsAfterSync(env, s, plan, snap);
    ProjectedID(env, t.principals, t.registration, snap);
  }

  lemma {:induction false} SyncAllCarries(env: Env, s: State, plan: Plan, t: State, snaps: seq<Snapshot>)
    requires Shaped(s) && Sane(env, s, plan) && CarriedOut(env, s, plan, t) && SyncAll(env, t, snaps).1.Ok?
    requires forall snap :: snap in snaps ==> snap.tenant.status.Active?
    ensures Sane(env, s, AddAll(env, plan, snaps)) && CarriedOut(env, s, AddAll(env, plan, snaps), SyncAll(env, t, snaps).0)
    decreases |snaps|
  {
    hide SyncSnapshot, CarriedOut, Sane, AddSnapshot, Shaped;
    if snaps != [] {
      SyncCarries(env, s, plan, t, snaps[0]);
      SyncAllCarries(env, s, AddSnapshot(env, plan, snaps[0]), SyncSnapshot(env, t, snaps[0]).0, snaps[1..]);
    }
  }

  lemma PrincipalsAfterRevoke(env: Env, s: State, plan: Plan, id: string)
    requires id in s.principals
    ensures PlannedPrincipals(env, s, plan)[id := PlannedPrincipal(env, s, plan, id).(status := Disabled)]
         == PlannedPrincipals(env, s, AddRevoked(plan, {id}))
  {
    hide Projected;
  }

  lemma SessionsAfterRevoke(env: Env, s: State, plan: Plan, id: string)
    ensures WithoutSessionsOf(PlannedSessions(env, s, plan), id) == PlannedSessions(env, s, AddRevoked(plan, {id}))
  {
    hide Projected;
  }

  /** Revoking a stored record carries out one more entry of the plan. */
  lemma RevokeCarries(env: Env, s: State, plan: Plan, t: State, p: Principal)
    requires Sane(env, s, plan) && CarriedOut(env, s, plan, t) && p.id in s.principals
    ensures Sane(env, s, AddRevoked(plan, {p.id})) && CarriedOut(env, s, AddRevoked(plan, {p.id}), RevokeDirectoryPrincipal(t, p).0)
  {
    hide PlannedPrincipal, PlannedSessions, PlannedTenants, PID;
    PlannedTenantsSame(s, plan, AddRevoked(plan, {p.id}));
    PrincipalsAfterRevoke(env, s, plan, p.id);
    SessionsAfterRevoke(env, s, plan, p.id);
  }

  lemma PlannedTenantsSame(s: State, a: Plan, b: Plan)
    requires a.tenants == b.tenants
    ensures PlannedTenants(s, a) == PlannedTenants(s, b)
  {
  }

  lemma NothingCarriedOut(env: Env, s: State)
    ensures Sane(env, s, EMPTY_PLAN) && CarriedOut(env, s, EMPTY_PLAN, s)
  {
    hide Projected;
    assert PlannedTenants(s, EMPTY_PLAN) == s.tenants;
    assert PlannedPrincipals(env, s, EMPTY_PLAN) == s.principals;
    assert PlannedSessions(env, s, EMPTY_PLAN) == s.sessions;
  }

  /** The records that a visit revokes. */
  function Gone(ms: seq<Mapping>, prior: seq<Principal>, current: seq<Principal>): set<string> {
    set p | p in prior && Managed(ms, p.tenantID) && !Present(current, p.id) :: p.id
  }

  lemma {:induction false} RevokeLostCarries(env: Env, ms: seq<Mapping>, s: State, plan: Plan, t: State, prior: seq<Principal>, current: seq<Principal>)
    requires Sane(env, s, plan) && CarriedOut(env, s, plan, t) && AllRevocable(ms, s, prior) && RevokeLost(ms, t, prior, current).1.Ok?
    ensures var after := AddRevoked(plan, Gone(ms, prior, current));
      Sane(env, s, after) && CarriedOut(env, s, after, RevokeLost(ms, t, prior, current).0)
    decreases |prior|
  {
    hide Sane, CarriedOut, RevokeDirectoryPrincipal, Managed, Present, Covered;
    if prior == [] {
      assert AddRevoked(plan, Gone(ms, prior, current)) == plan;
    } else {
      var n := |prior| - 1;
      assert prior == prior[..n] + [prior[n]];
      var before, p := Gone(ms, prior[..n], current), prior[n];
      assert p in prior;
      RevokeLostCarries(env, ms, s, plan, t, prior[..n], current);
      if Managed(ms, p.tenantID) && !Present(current, p.id) {
        assert Gone(ms, prior, current) == before + {p.id};
        RevokeCarries(env, s, AddRevoked(plan, before), RevokeLost(ms, t, prior[..n], current).0, p);
        assert AddRevoked(AddRevoked(plan, before), {p.id}) == AddRevoked(plan, before + {p.id});
      } else {
        assert Gone(ms, prior, current) == before;
      }
    }
  }

  lemma GoneIsLost(env: Env, ms: seq<Mapping>, fetch: Fetch, s: State, u: string, prior: seq<Principal>, current: seq<Principal>)
    requires Shaped(s) && ListsAll(s.principals, u, prior) && u != ""
    requires forall id :: Present(current, id) <==> exists snap :: snap in Answer(ms, fetch, u) && PID(env, snap) == id
    ensures Gone(ms, prior, current) == LostBy(env, ms, fetch, s, u)
  {
    hide PID, Managed, Present, SessionsShaped, Answer;
    var gone, lost := Gone(ms, prior, current), LostBy(env, ms, fetch, s, u);
    forall id | id in gone ensures id in lost {
      var p :| p in prior && Managed(ms, p.tenantID) && !Present(current, p.id) && p.id == id;
      var k :| k in s.principals && s.principals[k] == p && p.externalID == u;
      assert RecordShaped(k, p);
    }
    forall id | id in lost ensures id in gone {
      var p := s.principals[id];
      assert RecordShaped(id, p) && p in prior;
    }
  }

  lemma VisitCarries(env: Env, ms: seq<Mapping>, fetch: Fetch, s: State, plan: Plan, t: State, u: string, prior: seq<Principal>)
    requires Shaped(s) && Sane(env, s, plan) && CarriedOut(env, s, plan, t) && u in Known(ms, s)
    requires ListsAll(s.principals, u, prior) && AllRevocable(ms, s, prior) && Visit(env, ms, fetch, t, u, prior).1.Ok?
    ensures var after := AddRevoked(AddAll(env, plan, Answer(ms, fetch, u)), LostBy(env, ms, fetch, s, u));
      Sane(env, s, after) && CarriedOut(env, s, after, Visit(env, ms, fetch, t, u, prior).0)
  {
    hide SyncUser, SyncReport, SyncAll, Sane, CarriedOut, AddAll, Yields, PID, AllRevocable, ListsAll, RevokeLost, Managed, Shaped;
    ReportSynced(env, ms, fetch, t, u);
    var snaps := Answer(ms, fetch, u);
    var (t1, r) := SyncAll(env, t, snaps);
    forall snap | snap in snaps ensures snap.tenant.status.Active? { YieldFacts(ms, fetch, u, snap); }
    SyncAllCarries(env, s, plan, t, snaps);
    forall id ensures Present(r.value, id) <==> exists snap :: snap in snaps && PID(env, snap) == id { SyncedIDs(env, t, snaps, id); }
    GoneIsLost(env, ms, fetch, s, u, prior, r.value);
    RevokeLostCarries(env, ms, s, AddAll(env, plan, snaps), t1, prior, r.value);
  }

  /** Every successful walk, over any identifiers, carries out its plan. */
  lemma {:induction false} WalkCarries(env: Env, ms: seq<Mapping>, fetch: Fetch, s: State, known: Listing, order: seq<string>)
    requires Shaped(s) && WalkOf(ms, s, known, order) && Walk(env, ms, fetch, s, known, order).1.Ok?
    ensures var plan := WalkPlan(env, ms, fetch, s, order);
      Sane(env, s, plan) && CarriedOut(env, s, plan, Walk(env, ms, fetch, s, known, order).0)
    decreases |order|
  {
    hide Visit, Sane, CarriedOut, AllRevocable, ListsAll, Known, Shaped, AddAll, AddRevoked, LostBy, Answer;
    if order == [] {
      NothingCarriedOut(env, s);
    } else {
      var n := |order| - 1;
      assert order == order[..n] + [order[n]];
      WalkCarries(env, ms, fetch, s, known, order[..n]);
      PriorRevocable(ms, s, known, order[n]);
      VisitCarries(env, ms, fetch, s, WalkPlan(env, ms, fetch, s, order[..n]), Walk(env, ms, fetch, s, known, order[..n]).0, order[n], known[order[n]]);
    }
  }

  // ----- what is in the plan of a walk -----

  lemma Answered(ms: seq<Mapping>, fetch: Fetch, u: string, snap: Snapshot)
    ensures snap in Answer(ms, fetch, u) ==> snap.user.id == u && Yields(ms, fetch, u, snap)
    ensures SyncUser(ms, fetch, u).Ok? && Yields(ms, fetch, u, snap) ==> snap in Answer(ms, fetch, u)
  {
    hide Yields, Collect, Blank;
    if SyncUser(ms, fetch, u).Ok? { CollectYields(ms, fetch, u, snap); }
    if Yields(ms, fetch, u, snap) { YieldFacts(ms, fetch, u, snap); }
  }

  /** The last snapshot about an identifier. */
  function LastFor(env: Env, snaps: seq<Snapshot>, id: string): (r: Option<Snapshot>)
    ensures r.Some? ==> r.value in snaps && PID(env, r.value) == id
    ensures r.None? ==> forall snap :: snap in snaps ==> PID(env, snap) != id
    decreases |snaps|
  {
    if snaps == [] then None
    else
      var later := LastFor(env, snaps[1..], id);
      assert snaps == [snaps[0]] + snaps[1..];
      if later.Some? then later else if PID(env, snaps[0]) == id then Some(snaps[0]) else None
  }

  predicate DisabledIn(env: Env, snaps: seq<Snapshot>, id: string) {
    exists snap :: snap in snaps && PID(env, snap) == id && snap.user.disabled
  }

  predicate TenantIn(snaps: seq<Snapshot>, t: string, tenant: Tenant) {
    exists snap :: snap in snaps && snap.tenant.id == t && snap.tenant == tenant
  }

  lemma {:induction false} AddAllExactly(env: Env, plan: Plan, snaps: seq<Snapshot>, id: string)
    ensures var after, last := AddAll(env, plan, snaps), LastFor(env, snaps, id);
      && (id in after.projected <==> last.Some? || id in plan.projected)
      && (id in after.projected ==> after.projected[id] == if last.Some? then last.value else plan.projected[id])
      && (id in after.revoked <==> DisabledIn(env, snaps, id) || id in plan.revoked)
    decreases |snaps|
  {
    hide PID;
    if snaps != [] {
      AddAllExactly(env, AddSnapshot(env, plan, snaps[0]), snaps[1..], id);
      assert snaps == [snaps[0]] + snaps[1..];
    }
  }

  lemma {:induction false} AddAllTenants(env: Env, plan: Plan, snaps: seq<Snapshot>, t: string)
    ensures var after := AddAll(env, plan, snaps);
      && (t in plan.tenants || (exists snap :: snap in snaps && snap.tenant.id == t) ==> t in after.tenants)
      && (t in after.tenants ==> TenantIn(snaps, t, after.tenants[t]) || (t in plan.tenants && after.tenants[t] == plan.tenants[t]))
    decreases |snaps|
  {
    hide PID;
    if snaps != [] {
      AddAllTenants(env, AddSnapshot(env, plan, snaps[0]), snaps[1..], t);
      assert snaps == [snaps[0]] + snaps[1..];
    }
  }

  /** The `i`-th subject of the order is the last one with a report about the identifier. */
  ghost predicate ReportsLast(env: Env, ms: seq<Mapping>, fetch: Fetch, order: seq<string>, i: int, id: string) {
    && 0 <= i < |order| && LastFor(env, Answer(ms, fetch, order[i]), id).Some?
    && forall j :: i < j < |order| ==> LastFor(env, Answer(ms, fetch, order[j]), id).None?
  }

  lemma {:induction false} WalkProjects(env: Env, ms: seq<Mapping>, fetch: Fetch, s: State, order: seq<string>, id: string)
    ensures var plan := WalkPlan(env, ms, fetch, s, order);
      && (id in plan.projected ==>
            exists i :: ReportsLast(env, ms, fetch, order, i, id) && Some(plan.projected[id]) == LastFor(env, Answer(ms, fetch, order[i]), id))
      && (forall u :: u in order && LastFor(env, Answer(ms, fetch, u), id).Some? ==> id in plan.projected)
    decreases |order|
  {
    hide Answer, LastFor, LostBy, AddAll;
    if order != [] {
      var n := |order| - 1;
      var before, plan := WalkPlan(env, ms, fetch, s, order[..n]), WalkPlan(env, ms, fetch, s, order);
      assert order == order[..n] + [order[n]];
      WalkProjects(env, ms, fetch, s, order[..n], id);
      AddAllExactly(env, before, Answer(ms, fetch, order[n]), id);
      if id in plan.projected {
        if LastFor(env, Answer(ms, fetch, order[n]), id).Some? {
          assert ReportsLast(env, ms, fetch, order, n, id);
        } else {
          var i :| ReportsLast(env, ms, fetch, order[..n], i, id) && Some(before.projected[id]) == LastFor(env, Answer(ms, fetch, order[..n][i]), id);
          assert ReportsLast(env, ms, fetch, order, i, id);
        }
      }
    }
  }

  /** A visit to the subject disables the identifier: a report disables it, or the subject loses it. */
  predicate Drops(env: Env, ms: seq<Mapping>, fetch: Fetch, s: State, u: string, id: string) {
    DisabledIn(env, Answer(ms, fetch, u), id) || id in LostBy(env, ms, fetch, s, u)
  }

  lemma {:induction false} WalkRevokes(env: Env, ms: seq<Mapping>, fetch: Fetch, s: State, order: seq<string>, id: string)
    ensures id in WalkPlan(env, ms, fetch, s, order).revoked <==> exists u :: u in order && Drops(env, ms, fetch, s, u, id)
    decreases |order|
  {
    hide Answer, LostBy, AddAll, DisabledIn;
    if order != [] {
      var n := |order| - 1;
      assert order == order[..n] + [order[n]];
      WalkRevokes(env, ms, fetch, s, order[..n], id);
      AddAllExactly(env, WalkPlan(env, ms, fetch, s, order[..n]), Answer(ms, fetch, order[n]), id);
      assert id in WalkPlan(env, ms, fetch, s, order).revoked <==> id in WalkPlan(env, ms, fetch, s, order[..n]).revoked || Drops(env, ms, fetch, s, order[n], id);
    }
  }

  predicate Mentions(ms: seq<Mapping>, fetch: Fetch, u: string, t: string) {
    exists snap :: snap in Answer(ms, fetch, u) && snap.tenant.id == t
  }

  lemma {:induction false} WalkTenants(env: Env, ms: seq<Mapping>, fetch: Fetch, s: State, order: seq<string>, t: string)
    ensures var plan := WalkPlan(env, ms, fetch, s, order);
      && (forall u :: u in order && Mentions(ms, fetch, u, t) ==> t in plan.tenants)
      && (t in plan.tenants ==> exists u :: u in order && TenantIn(Answer(ms, fetch, u), t, plan.tenants[t]))
    decreases |order|
  {
    hide Answer, LostBy, AddAll, TenantIn;
    if order != [] {
      var n := |order| - 1;
      assert order == order[..n] + [order[n]];
      WalkTenants(env, ms, fetch, s, order[..n], t);
      AddAllTenants(env, WalkPlan(env, ms, fetch, s, order[..n]), Answer(ms, fetch, order[n]), t);
    }
  }

  // ----- exactly when the order does not matter -----

  /** No identifier is reported for two different subjects. */
  ghost predicate Unshared(env: Env, ms: seq<Mapping>, fetch: Fetch, K: set<string>) {
    forall a, b {:trigger FromDirectory(ms, fetch, K, a), FromDirectory(ms, fetch, K, b)} ::
      FromDirectory(ms, fetch, K, a) && FromDirectory(ms, fetch, K, b) && PID(env, a) == PID(env, b) ==> a.user.id == b.user.id
  }

  lemma OneReporter(env: Env, ms: seq<Mapping>, fetch: Fetch, K: set<string>, u: string, v: string, id: string)
    requires Unshared(env, ms, fetch, K) && u in K && v in K
    requires LastFor(env, Answer(ms, fetch, u), id).Some? && LastFor(env, Answer(ms, fetch, v), id).Some?
    ensures u == v
  {
    hide Answer, Yields, PID;
    var a, b := LastFor(env, Answer(ms, fetch, u), id).value, LastFor(env, Answer(ms, fetch, v), id).value;
    Answered(ms, fetch, u, a);
    Answered(ms, fetch, v, b);
    assert FromDirectory(ms, fetch, K, a) && FromDirectory(ms, fetch, K, b);
  }

  /** Under that condition the last report about an identifier is that of its one reporter. */
  lemma ProjectedIs(env: Env, ms: seq<Mapping>, fetch: Fetch, s: State, K: set<string>, order: seq<string>, u: string, id: string)
    requires Unshared(env, ms, fetch, K) && Elements(order) <= K && u in order && LastFor(env, Answer(ms, fetch, u), id).Some?
    ensures var plan := WalkPlan(env, ms, fetch, s, order);
      id in plan.projected && Some(plan.projected[id]) == LastFor(env, Answer(ms, fetch, u), id)
  {
    hide Answer, LastFor, Unshared, WalkPlan;
    WalkProjects(env, ms, fetch, s, order, id);
    var plan := WalkPlan(env, ms, fetch, s, order);
    var i :| ReportsLast(env, ms, fetch, order, i, id) && Some(plan.projected[id]) == LastFor(env, Answer(ms, fetch, order[i]), id);
    assert order[i] in order;
    OneReporter(env, ms, fetch, K, u, order[i], id);
  }

  lemma TenantIs(env: Env, ms: seq<Mapping>, fetch: Fetch, s: State, order: seq<string>, u: string, snap: Snapshot)
    requires GoodMappings(ms) && u in order && snap in Answer(ms, fetch, u)
    ensures var plan := WalkPlan(env, ms, fetch, s, order); snap.tenant.id in plan.tenants && plan.tenants[snap.tenant.id] == snap.tenant
  {
    hide Answer, WalkPlan, Yields, GoodMappings;
    var plan := WalkPlan(env, ms, fetch, s, order);
    WalkTenants(env, ms, fetch, s, order, snap.tenant.id);
    assert Mentions(ms, fetch, u, snap.tenant.id);
    var v :| v in order && TenantIn(Answer(ms, fetch, v), snap.tenant.id, plan.tenants[snap.tenant.id]);
    var other :| other in Answer(ms, fetch, v) && other.tenant.id == snap.tenant.id && other.tenant == plan.tenants[snap.tenant.id];
    Answered(ms, fetch, u, snap);
    Answered(ms, fetch, v, other);
    TenantOfMapping(ms, fetch, u, snap, v, other);
  }

  lemma PlanWithin(env: Env, ms: seq<Mapping>, fetch: Fetch, s: State, K: set<string>, x: seq<string>, y: seq<string>)
    requires GoodMappings(ms) && Unshared(env, ms, fetch, K) && Elements(x) <= Elements(y) <= K
    ensures var a, b := WalkPlan(env, ms, fetch, s, x), WalkPlan(env, ms, fetch, s, y);
      && (forall id :: id in a.projected ==> id in b.projected && b.projected[id] == a.projected[id])
      && (forall t :: t in a.tenants ==> t in b.tenants && b.tenants[t] == a.tenants[t])
      && a.revoked <= b.revoked
  {
    hide Answer, LastFor, Unshared, WalkPlan, GoodMappings, Drops;
    var a, b := WalkPlan(env, ms, fetch, s, x), WalkPlan(env, ms, fetch, s, y);
    forall id | id in a.projected ensures id in b.projected && b.projected[id] == a.projected[id] {
      WalkProjects(env, ms, fetch, s, x, id);
      var i :| ReportsLast(env, ms, fetch, x, i, id) && Some(a.projected[id]) == LastFor(env, Answer(ms, fetch, x[i]), id);
      assert x[i] in Elements(x);
      ProjectedIs(env, ms, fetch, s, K, y, x[i], id);
    }
    forall t | t in a.tenants ensures t in b.tenants && b.tenants[t] == a.tenants[t] {
      WalkTenants(env, ms, fetch, s, x, t);
      var u :| u in x && TenantIn(Answer(ms, fetch, u), t, a.tenants[t]);
      var snap :| snap in Answer(ms, fetch, u) && snap.tenant.id == t && snap.tenant == a.tenants[t];
      assert u in Elements(x);
      TenantIs(env, ms, fetch, s, y, u, snap);
    }
    forall id | id in a.revoked ensures id in b.revoked {
      WalkRevokes(env, ms, fetch, s, x, id);
      WalkRevokes(env, ms, fetch, s, y, id);
      var u :| u in x && Drops(env, ms, fetch, s, u, id);
      assert u in Elements(x);
    }
  }

  /** Then orders of the same subjects have the same plan. */
  lemma PlanUnique(env: Env, ms: seq<Mapping>, fetch: Fetch, s: State, K: set<string>, x: seq<string>, y: seq<string>)
    requires GoodMappings(ms) && Unshared(env, ms, fetch, K) && Elements(x) == Elements(y) <= K
    ensures WalkPlan(env, ms, fetch, s, x) == WalkPlan(env, ms, fetch, s, y)
  {
    hide WalkPlan, Unshared, GoodMappings;
    PlanWithin(env, ms, fetch, s, K, x, y);
    PlanWithin(env, ms, fetch, s, K, y, x);
    var a, b := WalkPlan(env, ms, fetch, s, x), WalkPlan(env, ms, fetch, s, y);
    assert a.projected == b.projected && a.tenants == b.tenants && a.revoked == b.revoked;
  }

  /** A successful reconciliation: every known subject is visited once. */
  ghost predicate Complete(env: Env, ms: seq<Mapping>, fetch: Fetch, s: State, known: Listing, order: seq<string>, t: State) {
    Finished(env, ms, fetch, s, known, order, t) && Enumerates(order, known.Keys)
  }

  ghost predicate Reconciled(env: Env, ms: seq<Mapping>, fetch: Fetch, s: State, t: State) {
    exists known, order :: Complete(env, ms, fetch, s, known, order, t)
  }

  lemma CompletePlan(env: Env, ms: seq<Mapping>, fetch: Fetch, s: State, known: Listing, order: seq<string>, t: State)
    requires Shaped(s) && Complete(env, ms, fetch, s, known, order, t)
    ensures Elements(order) == Known(ms, s)
    ensures var plan := WalkPlan(env, ms, fetch, s, order); Sane(env, s, plan) && CarriedOut(env, s, plan, t)
  {
    hide Shaped, Known, Walk, WalkPlan, Sane, CarriedOut, ListsAll;
    WalkCarries(env, ms, fetch, s, known, order);
  }

  /** Order independence: if no identifier is shared, any two successful reconciliations of one state
      against one directory end with the same tenants, principals and sessions. */
  lemma OrderIndependent(env: Env, ms: seq<Mapping>, fetch: Fetch, s: State, t1: State, t2: State)
    requires Shaped(s) && GoodMappings(ms) && Unshared(env, ms, fetch, Known(ms, s))
    requires Reconciled(env, ms, fetch, s, t1) && Reconciled(env, ms, fetch, s, t2)
    ensures t1 == t2.(audits := t1.audits)
  {
    hide Shaped, GoodMappings, Unshared, Complete, WalkPlan, Known, PlannedTenants, PlannedPrincipals, PlannedSessions, Sane;
    var k1, x :| Complete(env, ms, fetch, s, k1, x, t1);
    var k2, y :| Complete(env, ms, fetch, s, k2, y, t2);
    CompletePlan(env, ms, fetch, s, k1, x, t1);
    CompletePlan(env, ms, fetch, s, k2, y, t2);
    PlanUnique(env, ms, fetch, s, Known(ms, s), x, y);
  }

  lemma SomeRecords(s: State, u: string) returns (ps: seq<Principal>)
    requires u != ""
    ensures ListsAll(s.principals, u, ps)
  {
    var ids := SomeOrder(s.principals.Keys);
    ps := [];
    for i := 0 to |ids|
      invariant forall p :: p in ps <==> exists j :: 0 <= j < i && s.principals[ids[j]] == p && p.externalID == u
    {
      if s.principals[ids[i]].externalID == u { ps := ps + [s.principals[ids[i]]]; }
    }
    forall p ensures p in ps <==> exists id :: id in s.principals && s.principals[id] == p && p.externalID != "" && p.externalID == u {
      if id :| id in s.principals && s.principals[id] == p && p.externalID == u { assert id in ids; }
    }
  }

  lemma SomeListing(ms: seq<Mapping>, s: State) returns (known: Listing)
    ensures Lists(ms, s, known)
  {
    known := map[];
    var todo := Known(ms, s);
    while todo != {}
      invariant todo <= Known(ms, s) && known.Keys == Known(ms, s) - todo
      invariant forall u :: u in known ==> ListsAll(s.principals, u, known[u])
      decreases todo
    {
      hide ListsAll;
      var u :| u in todo;
      var ps := SomeRecords(s, u);
      known, todo := known[u := ps], todo - {u};
    }
  }

  /** A subject with a report about an identifier can be visited last, and then the record is its. */
  lemma LastWins(env: Env, ms: seq<Mapping>, fetch: Fetch, s: State, snap: Snapshot) returns (t: State)
    requires Shaped(s) && GoodMappings(ms) && Reconcilable(ms, fetch, s) && FromDirectory(ms, fetch, Known(ms, s), snap)
    ensures Reconciled(env, ms, fetch, s, t) && PID(env, snap) in t.principals
    ensures t.principals[PID(env, snap)].externalID == snap.user.id
  {
    hide Shaped, GoodMappings, Known, Walk, WalkPlan, Sane, Yields, PID, Answer, LastFor, ListsAll, Projected, SubjectReady;
    var u, id := snap.user.id, PID(env, snap);
    var known := SomeListing(ms, s);
    var others := SomeOrder(known.Keys - {u});
    var order := others + [u];
    assert Enumerates(order, known.Keys);
    ListedKeys(ms, s, known);
    assert forall v :: v in order ==> SubjectReady(ms, fetch, s, v);
    WalkSucceeds(env, ms, fetch, s, known, order);
    t := Walk(env, ms, fetch, s, known, order).0;
    assert Complete(env, ms, fetch, s, known, order, t);
    CompletePlan(env, ms, fetch, s, known, order, t);
    assert SyncUser(ms, fetch, u).Ok? by { assert SubjectReady(ms, fetch, s, u); FetchedWhenReady(ms, fetch, s, u); }
    Answered(ms, fetch, u, snap);
    WalkProjects(env, ms, fetch, s, order, id);
    var plan := WalkPlan(env, ms, fetch, s, order);
    var i :| ReportsLast(env, ms, fetch, order, i, id) && Some(plan.projected[id]) == LastFor(env, Answer(ms, fetch, order[i]), id);
    var last := |order| - 1;
    assert order[last] == u && i == last;
    Answered(ms, fetch, u, plan.projected[id]);
    ProjectedOwner(env, s, plan.projected[id]);
  }

  lemma FetchedWhenReady(ms: seq<Mapping>, fetch: Fetch, s: State, u: string)
    requires SubjectReady(ms, fetch, s, u)
    ensures SyncUser(ms, fetch, u).Ok?
  {
  }

  lemma ProjectedOwner(env: Env, s: State, snap: Snapshot)
    ensures var p := Projected(env, s.principals, s.registration, snap);
      p.tenantID == snap.tenant.id && p.externalID == snap.user.id && p.kind.User? && p.id == PID(env, snap)
  {
    hide NormalizedDirectoryRoles, DirectoryTeams, PrincipalID;
  }

  /** Exactly when the order of the walk does not matter: when no identifier is reported for two
      different known subjects. */
  lemma OrderExactly(env: Env, ms: seq<Mapping>, fetch: Fetch, s: State)
    requires Shaped(s) && GoodMappings(ms) && Reconcilable(ms, fetch, s)
    ensures Unshared(env, ms, fetch, Known(ms, s)) <==>
      forall t1, t2 :: Reconciled(env, ms, fetch, s, t1) && Reconciled(env, ms, fetch, s, t2) ==> t1 == t2.(audits := t1.audits)
  {
    hide Shaped, GoodMappings, Reconcilable, Known, Reconciled, FromDirectory, PID;
    if Unshared(env, ms, fetch, Known(ms, s)) {
      forall t1, t2 | Reconciled(env, ms, fetch, s, t1) && Reconciled(env, ms, fetch, s, t2) ensures t1 == t2.(audits := t1.audits) {
        OrderIndependent(env, ms, fetch, s, t1, t2);
      }
    } else {
      var a, b :| FromDirectory(ms, fetch, Known(ms, s), a) && FromDirectory(ms, fetch, Known(ms, s), b) && PID(env, a) == PID(env, b) && a.user.id != b.user.id;
      var t1 := LastWins(env, ms, fetch, s, a);
      var t2 := LastWins(env, ms, fetch, s, b);
    }
  }

  /** Directories whose mapped tenants and known subjects are told apart share no identifier. */
  ghost predicate TellsApart(env: Env, ids: Ids) {
    forall t1, u1, t2, u2 {:trigger ids(t1, u1), ids(t2, u2)} ::
      ids(t1, u1) && ids(t2, u2) && PrincipalID(env, t1, u1) == PrincipalID(env, t2, u2) ==> t1 == t2 && u1 == u2
  }

  lemma CleanApart(env: Env)
    requires IdealDigest(env)
    ensures TellsApart(env, CleanIds)
  {
    hide CleanIds, PrincipalID, IdealDigest;
    forall t1, u1, t2, u2 | CleanIds(t1, u1) && CleanIds(t2, u2) && PrincipalID(env, t1, u1) == PrincipalID(env, t2, u2)
      ensures t1 == t2 && u1 == u2
    {
      CleanExactly(env, t1, u1, t2, u2);
    }
  }

  lemma ApartUnshared(env: Env, ids: Ids, ms: seq<Mapping>, fetch: Fetch, K: set<string>)
    requires TellsApart(env, ids) && ReportsAmong(ids, ms, K)
    ensures Unshared(env, ms, fetch, K)
  {
    hide FromDirectory, ReportsAmong, PrincipalID;
    forall a, b | FromDirectory(ms, fetch, K, a) && FromDirectory(ms, fetch, K, b) && PID(env, a) == PID(env, b) ensures a.user.id == b.user.id {
      ReportAmong(ids, ms, fetch, K, a);
      ReportAmong(ids, ms, fetch, K, b);
    }
  }

  /** Then no record of an outside owner is touched either, if the owner is told apart too. */
  lemma Untouched(env: Env, ids: Ids, ms: seq<Mapping>, fetch: Fetch, s: State, known: Listing, order: seq<string>, t: State, id: string)
    requires TellsApart(env, ids) && ReportsAmong(ids, ms, Known(ms, s))
    requires Shaped(s) && Finished(env, ms, fetch, s, known, order, t)
    requires id in s.principals && UserOk(env, ids, s.principals[id]) && !Covered(ms, s, s.principals[id])
    ensures Alone(s, t, id)
  {
    hide Finished, Known, FromDirectory, PrincipalID, Managed, Alone, ReportsAmong, SessionsShaped;
    OutsideExactly(env, ms, fetch, s, known, order, t, id);
    if snap :| Reported(env, ms, fetch, Known(ms, s), id, snap) {
      ReportAmong(ids, ms, fetch, Known(ms, s), snap);
      ProjectedPrefixes(env, snap.tenant.id, snap.user.id);
      assert RecordShaped(id, s.principals[id]);
      ReportCovered(ms, fetch, s, snap);
    }
  }

  lemma ReportCovered(ms: seq<Mapping>, fetch: Fetch, s: State, snap: Snapshot)
    requires FromDirectory(ms, fetch, Known(ms, s), snap)
    ensures Managed(ms, snap.tenant.id) && snap.user.id in Known(ms, s)
  {
    hide Yields, Known;
    YieldFacts(ms, fetch, snap.user.id, snap);
  }

  // ----- convergence to one's own report -----

  /** A principal that mirrors a directory report: its record is what the report projects to. */
  ghost predicate Mirrors(env: Env, ms: seq<Mapping>, fetch: Fetch, s: State, t: State, id: string, snap: Snapshot) {
    && id in s.principals && id in t.principals
    && Yields(ms, fetch, s.principals[id].externalID, snap) && PID(env, snap) == id
    && t.principals[id] == Projected(env, s.principals, s.registration, snap)
  }

  ghost predicate SignedOut(t: State, id: string) {
    id in t.principals && t.principals[id].status.Disabled? && forall k :: k in t.sessions ==> t.sessions[k].principalID != id
  }

  /** Convergence, subject by subject: if no identifier is shared, every stored record of a known subject
      in a mapped tenant ends as the directory's report about that very subject, or disabled and signed
      out. */
  lemma Converges(env: Env, ms: seq<Mapping>, fetch: Fetch, s: State, t: State, id: string)
    requires Shaped(s) && Unshared(env, ms, fetch, Known(ms, s)) && Reconciled(env, ms, fetch, s, t)
    requires id in s.principals && Covered(ms, s, s.principals[id])
    ensures id in t.principals
    ensures SignedOut(t, id) || exists snap :: Mirrors(env, ms, fetch, s, t, id, snap)
    ensures t.principals[id].status.Disabled? ==> SignedOut(t, id)
  {
    hide Shaped, Unshared, Known, WalkPlan, Sane, Answer, LastFor, Projected, Yields, Walk, Managed, Lists, DisabledIn, Carries, PID;
    var known, order :| Complete(env, ms, fetch, s, known, order, t);
    var u, plan := s.principals[id].externalID, WalkPlan(env, ms, fetch, s, order);
    CompletePlan(env, ms, fetch, s, known, order, t);
    CoveredSettles(env, ms, fetch, s, known, order, t, id);
    WalkRevokes(env, ms, fetch, s, order, id);
    if id !in plan.revoked {
      assert u in order && !Drops(env, ms, fetch, s, u, id);
      ProjectedIs(env, ms, fetch, s, Known(ms, s), order, u, id);
      Answered(ms, fetch, u, plan.projected[id]);
      assert Mirrors(env, ms, fetch, s, t, id, plan.projected[id]);
    }
  }

  // ----- repetition -----

  predicate SamePerson(p: Principal, q: Principal) {
    p.kind == q.kind && p.tenantID == q.tenantID && p.externalID == q.externalID
  }

  ghost predicate TakenOrSame(ms: seq<Mapping>, s: State, t: State, id: string) {
    id in t.principals ==> Taken(ms, s, t, id) || (id in s.principals && SamePerson(s.principals[id], t.principals[id]))
  }

  /** No subject becomes known. */
  lemma KnownWithin(env: Env, ms: seq<Mapping>, fetch: Fetch, s: State, known: Listing, order: seq<string>)
    requires Shaped(s) && WalkOf(ms, s, known, order)
    ensures Known(ms, Walk(env, ms, fetch, s, known, order).0) <= Known(ms, s)
  {
    hide Shaped, Walk, Lists, Known, Managed;
    var t := Walk(env, ms, fetch, s, known, order).0;
    forall id ensures TakenOrSame(ms, s, t, id) { PersonKept(env, ms, fetch, s, known, order, id); }
    forall u | u in Known(ms, t) ensures u in Known(ms, s) { KnownFrom(ms, s, t, u); }
  }

  lemma KnownFrom(ms: seq<Mapping>, s: State, t: State, u: string)
    requires u in Known(ms, t) && forall id :: TakenOrSame(ms, s, t, id)
    ensures u in Known(ms, s)
  {
    hide Managed;
    var id :| id in t.principals && IsSubject(ms, t.principals[id]) && t.principals[id].externalID == u;
    assert TakenOrSame(ms, s, t, id);
  }

  lemma PersonKept(env: Env, ms: seq<Mapping>, fetch: Fetch, s: State, known: Listing, order: seq<string>, id: string)
    requires Shaped(s) && WalkOf(ms, s, known, order)
    ensures TakenOrSame(ms, s, Walk(env, ms, fetch, s, known, order).0, id)
  {
    hide Walk, Known, FromDirectory, Shaped, Projected, Lists, Managed;
    var P: State -> bool := (a: State) => TakenOrSame(ms, s, a, id);
    forall a, snap | P(a) && FromDirectory(ms, fetch, Known(ms, s), snap) && SyncSnapshot(env, a, snap).1.Ok?
      ensures P(SyncSnapshot(env, a, snap).0)
    {
      ProjectedID(env, a.principals, a.registration, snap);
      if PID(env, snap) == id || Taken(ms, s, a, id) { SyncTakes(env, ms, fetch, s, a, snap, id); }
    }
    WalkKeeps(env, ms, fetch, s, P, known, order);
  }

  /** A reconciliation that succeeded can be repeated: nothing it stored stands in its own way. */
  lemma RepeatSucceeds(env: Env, ms: seq<Mapping>, fetch: Fetch, s: State, t: State)
    requires Shaped(s) && GoodMappings(ms) && Reconciled(env, ms, fetch, s, t)
    ensures Reconcilable(ms, fetch, t)
  {
    hide Shaped, GoodMappings, Walk, Known, SyncUser, OrgAllowed, Lists, KeptByAll, Yields;
    var known, order :| Complete(env, ms, fetch, s, known, order, t);
    WalkSucceeds(env, ms, fetch, s, known, order);
    KnownWithin(env, ms, fetch, s, known, order);
    AcceptableKept(env, ms, fetch, s);
    WalkKeeps(env, ms, fetch, s, a => AsAcceptable(ms, fetch, Known(ms, s), s, a), known, order);
    forall u | u in Known(ms, t) ensures SubjectReady(ms, fetch, t, u) {
      assert u in order && SubjectReady(ms, fetch, s, u) by { ListedKeys(ms, s, known); }
      ReportSynced(env, ms, fetch, t, u);
    }
  }

  lemma ListedKeys(ms: seq<Mapping>, s: State, known: Listing)
    requires Lists(ms, s, known)
    ensures known.Keys == Known(ms, s)
  {
  }

  /** Whatever was reported about a known subject is settled. */
  lemma ReportedSettles(env: Env, ms: seq<Mapping>, fetch: Fetch, s: State, known: Listing, order: seq<string>, t: State, u: string, snap: Snapshot)
    requires Shaped(s) && Complete(env, ms, fetch, s, known, order, t) && u in Known(ms, s) && snap in Answer(ms, fetch, u)
    ensures Settled(env, ms, fetch, Known(ms, s), t, PID(env, snap))
    ensures snap.user.disabled ==> t.principals[PID(env, snap)].status.Disabled?
  {
    hide Shaped, Walk, WalkPlan, Known, Answer, Settled, Managed, Yields, Lists, PID, Sane;
    var id := PID(env, snap);
    Answered(ms, fetch, u, snap);
    ReportedTaken(env, ms, fetch, s, known, order, t, id, snap);
    AllSettle(env, ms, fetch, s, known, order, t, id);
    if snap.user.disabled {
      CompletePlan(env, ms, fetch, s, known, order, t);
      WalkRevokes(env, ms, fetch, s, order, id);
      assert u in Elements(order) && Drops(env, ms, fetch, s, u, id);
    }
  }

  lemma CarriedReport(env: Env, ms: seq<Mapping>, fetch: Fetch, K: set<string>, t: State, id: string)
    requires Settled(env, ms, fetch, K, t, id) && !t.principals[id].status.Disabled? && SyncUser(ms, fetch, t.principals[id].externalID).Ok?
    ensures exists snap :: snap in Answer(ms, fetch, t.principals[id].externalID) && PID(env, snap) == id
  {
    hide PrincipalID, NormalizedDirectoryRoles, DirectoryTeams, Yields, Answer, SyncUser;
    var snap :| Reported(env, ms, fetch, K, id, snap) && Carries(env, t.principals[id], snap);
    Answered(ms, fetch, snap.user.id, snap);
  }

  /** What a further visit to a known subject would disable is disabled already. */
  lemma DroppedSettles(env: Env, ms: seq<Mapping>, fetch: Fetch, s: State, known: Listing, order: seq<string>, t: State, u: string, id: string)
    requires Shaped(s) && GoodMappings(ms) && Complete(env, ms, fetch, s, known, order, t)
    requires u in Known(ms, s) && Drops(env, ms, fetch, t, u, id)
    ensures Settled(env, ms, fetch, Known(ms, s), t, id) && t.principals[id].status.Disabled?
  {
    hide Shaped, GoodMappings, Walk, Known, Answer, Settled, Managed, Lists, PID, SyncUser;
    if DisabledIn(env, Answer(ms, fetch, u), id) {
      var snap :| snap in Answer(ms, fetch, u) && PID(env, snap) == id && snap.user.disabled;
      ReportedSettles(env, ms, fetch, s, known, order, t, u, snap);
    } else {
      AllSettle(env, ms, fetch, s, known, order, t, id);
      WalkSucceeds(env, ms, fetch, s, known, order);
      assert SubjectReady(ms, fetch, s, u) by { ListedKeys(ms, s, known); }
      if !t.principals[id].status.Disabled? { CarriedReport(env, ms, fetch, Known(ms, s), t, id); }
    }
  }

  /** The second walk's plan adds nothing to what the first one left. */
  lemma NothingMore(env: Env, ms: seq<Mapping>, fetch: Fetch, s: State, known: Listing, order: seq<string>, t: State, again: seq<string>, id: string)
    requires Shaped(s) && GoodMappings(ms) && Unshared(env, ms, fetch, Known(ms, s)) && Complete(env, ms, fetch, s, known, order, t)
    requires Elements(again) <= Known(ms, s)
    ensures var first, plan := WalkPlan(env, ms, fetch, s, order), WalkPlan(env, ms, fetch, t, again);
      && (id in plan.projected ==> id in first.projected && first.projected[id] == plan.projected[id] && Settled(env, ms, fetch, Known(ms, s), t, id))
      && (id in plan.revoked ==> Settled(env, ms, fetch, Known(ms, s), t, id) && t.principals[id].status.Disabled?)
  {
    hide Shaped, GoodMappings, Unshared, Walk, WalkPlan, Known, Answer, LastFor, Settled, Lists, PID, Drops;
    var plan := WalkPlan(env, ms, fetch, t, again);
    WalkProjects(env, ms, fetch, t, again, id);
    WalkRevokes(env, ms, fetch, t, again, id);
    CompletePlan(env, ms, fetch, s, known, order, t);
    if id in plan.projected {
      var i :| ReportsLast(env, ms, fetch, again, i, id) && Some(plan.projected[id]) == LastFor(env, Answer(ms, fetch, again[i]), id);
      assert again[i] in Elements(again) && again[i] in Elements(order);
      ReportedSettles(env, ms, fetch, s, known, order, t, again[i], plan.projected[id]);
      ProjectedIs(env, ms, fetch, s, Known(ms, s), order, again[i], id);
    }
    if id in plan.revoked {
      var u :| u in again && Drops(env, ms, fetch, t, u, id);
      assert u in Elements(again);
      DroppedSettles(env, ms, fetch, s, known, order, t, u, id);
    }
  }

  lemma ProjectedAgain(env: Env, s: State, first: Plan, t: State, id: string)
    requires Shaped(s) && Sane(env, s, first) && t.principals == PlannedPrincipals(env, s, first) && t.registration == s.registration
    requires id in first.projected
    ensures Projected(env, t.principals, t.registration, first.projected[id]) == t.principals[id]
  {
    hide Shaped, Projected, PID;
    ProjectedAfterPlan(env, s, first, first.projected[id]);
  }

  /** Carrying out a plan that adds nothing changes nothing. */
  lemma PrincipalsStay(env: Env, s: State, first: Plan, t: State, plan: Plan)
    requires Shaped(s) && Sane(env, s, first) && t.principals == PlannedPrincipals(env, s, first) && t.registration == s.registration
    requires forall id :: id in plan.projected ==> id in first.projected && first.projected[id] == plan.projected[id]
    requires forall id :: id in plan.revoked ==> id in t.principals && t.principals[id].status.Disabled?
    ensures PlannedPrincipals(env, t, plan) == t.principals
  {
    hide Shaped, Projected, Sane;
    forall id | id in t.principals ensures PlannedPrincipal(env, t, plan, id) == t.principals[id] {
      if id in plan.projected { ProjectedAgain(env, s, first, t, id); }
    }
  }

  lemma SessionsStay(env: Env, ms: seq<Mapping>, fetch: Fetch, K: set<string>, s: State, first: Plan, t: State, plan: Plan)
    requires Shaped(s) && Sane(env, s, first) && t.principals == PlannedPrincipals(env, s, first) && t.registration == s.registration
    requires forall id :: id in plan.projected ==> id in first.projected && first.projected[id] == plan.projected[id] && Settled(env, ms, fetch, K, t, id)
    requires forall id :: id in plan.revoked ==> Settled(env, ms, fetch, K, t, id) && t.principals[id].status.Disabled?
    ensures PlannedSessions(env, t, plan) == t.sessions
  {
    hide Shaped, Projected, Sane, PlannedPrincipals, Reported, Carries;
    forall k | k in t.sessions ensures !Killed(env, t, plan, t.sessions[k].principalID) {
      var id := t.sessions[k].principalID;
      if id in plan.projected { ProjectedAgain(env, s, first, t, id); }
    }
  }

  lemma TenantsStay(s: State, first: Plan, t: State, plan: Plan)
    requires t.tenants == PlannedTenants(s, first)
    requires forall x :: x in plan.tenants ==> x in first.tenants && first.tenants[x] == plan.tenants[x] && plan.tenants[x].id == x && plan.tenants[x].status.Active?
    ensures PlannedTenants(t, plan) == t.tenants
  {
  }

  /** The tenants of the second plan are among those of the first. */
  lemma SameTenants(env: Env, ms: seq<Mapping>, fetch: Fetch, s: State, order: seq<string>, t: State, again: seq<string>, x: string)
    requires GoodMappings(ms) && Elements(again) <= Elements(order)
    ensures var first, plan := WalkPlan(env, ms, fetch, s, order), WalkPlan(env, ms, fetch, t, again);
      x in plan.tenants ==> x in first.tenants && first.tenants[x] == plan.tenants[x]
  {
    hide GoodMappings, WalkPlan, Answer;
    var plan := WalkPlan(env, ms, fetch, t, again);
    WalkTenants(env, ms, fetch, t, again, x);
    if x in plan.tenants {
      var u :| u in again && TenantIn(Answer(ms, fetch, u), x, plan.tenants[x]);
      var snap :| snap in Answer(ms, fetch, u) && snap.tenant.id == x && snap.tenant == plan.tenants[x];
      assert u in Elements(again);
      TenantIs(env, ms, fetch, s, order, u, snap);
    }
  }

  /** Fixpoint: if no identifier is shared, a second successful reconciliation against the same
      directory changes no tenant, no principal and no session; only the audit trail can grow. */
  lemma Fixpoint(env: Env, ms: seq<Mapping>, fetch: Fetch, s: State, t: State, u: State)
    requires Shaped(s) && GoodMappings(ms) && Unshared(env, ms, fetch, Known(ms, s))
    requires Reconciled(env, ms, fetch, s, t) && Reconciled(env, ms, fetch, t, u)
    ensures u == t.(audits := u.audits)
  {
    hide Shaped, GoodMappings, Unshared, Known, Walk, WalkPlan, Settled, Lists, PlannedTenants, PlannedPrincipals, PlannedSessions, Sane, Kept;
    var known, order :| Complete(env, ms, fetch, s, known, order, t);
    var k2, again :| Complete(env, ms, fetch, t, k2, again, u);
    var first, plan := WalkPlan(env, ms, fetch, s, order), WalkPlan(env, ms, fetch, t, again);
    CompletePlan(env, ms, fetch, s, known, order, t);
    WalkKept(env, CleanIds, ms, fetch, s, known, order);
    KeptShaped(env, CleanIds, ReportsAmong(CleanIds, ms, Known(ms, s)), s, t);
    CompletePlan(env, ms, fetch, t, k2, again, u);
    KnownWithin(env, ms, fetch, s, known, order);
    forall id { NothingMore(env, ms, fetch, s, known, order, t, again, id); }
    forall x { SameTenants(env, ms, fetch, s, order, t, again, x); }
    SaneTenants(env, t, plan);
    TenantsStay(s, first, t, plan);
    assert forall id :: id in plan.revoked ==> id in t.principals by { SettledStored(env, ms, fetch, Known(ms, s), t); }
    PrincipalsStay(env, s, first, t, plan);
    SessionsStay(env, ms, fetch, Known(ms, s), s, first, t, plan);
  }

  lemma SaneTenants(env: Env, s: State, plan: Plan)
    requires Sane(env, s, plan)
    ensures forall x :: x in plan.tenants ==> plan.tenants[x].id == x && plan.tenants[x].status.Active?
  {
    hide PID;
  }

  lemma SettledStored(env: Env, ms: seq<Mapping>, fetch: Fetch, K: set<string>, t: State)
    ensures forall id {:trigger Settled(env, ms, fetch, K, t, id)} :: Settled(env, ms, fetch, K, t, id) ==> id in t.principals
  {
    hide Reported, Carries;
  }
}
