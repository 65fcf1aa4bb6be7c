/** What any reconciliation does, whatever the identifiers: when it succeeds, what it keeps even when it
    fails, where every covered record ends up, and exactly which other records it changes. */
module Outcomes {
  import opened Text
  import opened Policies
  import opened Iam
  import opened Identity
  import opened Casdoor
  import opened Walks

  /** A walk over a listing of `s`, complete or cut short. */
  ghost predicate WalkOf(ms: seq<Mapping>, s: State, known: Listing, order: seq<string>) {
    Lists(ms, s, known) && forall u :: u in order ==> u in known
  }

  /** A walk that visited every known subject, without a failure, and ended in `t`. */
  ghost predicate Finished(env: Env, ms: seq<Mapping>, fetch: Fetch, s: State, known: Listing, order: seq<string>, t: State) {
    && WalkOf(ms, s, known, order) && (forall u :: u in known ==> u in order)
    && Walk(env, ms, fetch, s, known, order).1.Ok? && Walk(env, ms, fetch, s, known, order).0 == t
  }

  // ----- what is kept, finished or not -----

  ghost predicate ReportsAmong(ids: Ids, ms: seq<Mapping>, K: set<string>) {
    forall t, u :: Managed(ms, t) && u in K ==> ids(t, u)
  }

  lemma ReportAmong(ids: Ids, ms: seq<Mapping>, fetch: Fetch, K: set<string>, snap: Snapshot)
    requires ReportsAmong(ids, ms, K) && FromDirectory(ms, fetch, K, snap)
    ensures ids(snap.tenant.id, snap.user.id)
  {
    hide Yields;
    YieldFacts(ms, fetch, snap.user.id, snap);
  }

  /** Finished or not, from any shaped store: the store stays shaped, tenants keep their standing,
      statuses only decline, sessions only end; and sessions stay bound if the reports are among
      separate pairs. */
  lemma WalkKept(env: Env, ids: Ids, ms: seq<Mapping>, fetch: Fetch, s: State, known: Listing, order: seq<string>)
    requires Shaped(s) && WalkOf(ms, s, known, order)
    ensures Kept(env, ids, ReportsAmong(ids, ms, Known(ms, s)), s, Walk(env, ms, fetch, s, known, order).0)
  {
    hide Shaped, Evolves, Binds, Lists, Walk, SyncSnapshot, RevokeDirectoryPrincipal, FromDirectory, ReportsAmong, Known, Revocable;
    var within := ReportsAmong(ids, ms, Known(ms, s));
    var P: State -> bool := t => Kept(env, ids, within, s, t);
    KeptSame(env, ids, within, s);
    forall a, snap | P(a) && FromDirectory(ms, fetch, Known(ms, s), snap) && SyncSnapshot(env, a, snap).1.Ok?
      ensures P(SyncSnapshot(env, a, snap).0)
    {
      SyncSnapshotOk(env, ids, a, snap);
      if within { ReportAmong(ids, ms, fetch, Known(ms, s), snap); }
      Weaker(env, ids, within, a, SyncSnapshot(env, a, snap).0, snap);
      KeptThen(env, ids, within, s, a, SyncSnapshot(env, a, snap).0);
    }
    forall a, p | P(a) && Revocable(ms, s, p) ensures P(RevokeDirectoryPrincipal(a, p).0) {
      RevokeKept(env, ids, within, a, p);
      KeptThen(env, ids, within, s, a, RevokeDirectoryPrincipal(a, p).0);
    }
    WalkKeeps(env, ms, fetch, s, P, known, order);
  }

  lemma RevokeKept(env: Env, ids: Ids, within: bool, s: State, p: Principal)
    requires Shaped(s)
    ensures Kept(env, ids, within, s, RevokeDirectoryPrincipal(s, p).0)
  {
    hide Shaped, Kept, WithoutSessionsOf;
    KeptSame(env, ids, within, s);
    if p.id in s.principals { RevokedOk(env, ids, within, s, p.id, RevokeDirectoryPrincipal(s, p).0); }
  }

  // ----- when it succeeds -----

  /** Every yielded tenant is as acceptable as in `s`, and no record has gone. */
  ghost predicate AsAcceptable(ms: seq<Mapping>, fetch: Fetch, K: set<string>, s: State, t: State) {
    && s.principals.Keys <= t.principals.Keys
    && forall snap :: FromDirectory(ms, fetch, K, snap) ==> (OrgAllowed(t.tenants, snap.tenant) <==> OrgAllowed(s.tenants, snap.tenant))
  }

  lemma TenantOfMapping(ms: seq<Mapping>, fetch: Fetch, u: string, a: Snapshot, v: string, b: Snapshot)
    requires GoodMappings(ms) && Yields(ms, fetch, u, a) && Yields(ms, fetch, v, b) && a.tenant.id == b.tenant.id
    ensures a.tenant == b.tenant
  {
    hide Blank, Member, GetUser;
    var i :| 0 <= i < |ms| && SnapAt(ms, fetch, i, u) == Some(a);
    var j :| 0 <= j < |ms| && SnapAt(ms, fetch, j, v) == Some(b);
    assert ms[i].tenantID == ms[j].tenantID;
    assert i == j;
  }

  lemma AcceptableKept(env: Env, ms: seq<Mapping>, fetch: Fetch, s: State)
    requires GoodMappings(ms)
    ensures KeptByAll(env, ms, fetch, s, t => AsAcceptable(ms, fetch, Known(ms, s), s, t))
  {
    hide Projected, Yields, GoodMappings, Known, Revocable, SyncAudits;
    var K := Known(ms, s);
    forall a, snap | AsAcceptable(ms, fetch, K, s, a) && FromDirectory(ms, fetch, K, snap) && SyncSnapshot(env, a, snap).1.Ok?
      ensures AsAcceptable(ms, fetch, K, s, SyncSnapshot(env, a, snap).0)
    {
      var b := SyncSnapshot(env, a, snap).0;
      forall x | FromDirectory(ms, fetch, K, x) ensures OrgAllowed(b.tenants, x.tenant) <==> OrgAllowed(s.tenants, x.tenant) {
        if x.tenant.id == snap.tenant.id { TenantOfMapping(ms, fetch, x.user.id, x, snap.user.id, snap); }
      }
    }
  }

  lemma {:induction false} SyncAllSucceeds(env: Env, ms: seq<Mapping>, fetch: Fetch, s: State, t: State, snaps: seq<Snapshot>)
    requires GoodMappings(ms) && AsAcceptable(ms, fetch, Known(ms, s), s, t)
    requires forall snap :: snap in snaps ==> FromDirectory(ms, fetch, Known(ms, s), snap) && !Blank(snap.user.id)
    ensures SyncAll(env, t, snaps).1.Ok? <==> forall snap :: snap in snaps ==> OrgAllowed(s.tenants, snap.tenant)
    decreases |snaps|
  {
    hide Yields, Known, OrgAllowed, Projected, Blank, GoodMappings, AsAcceptable;
    if snaps != [] {
      var P: State -> bool := a => AsAcceptable(ms, fetch, Known(ms, s), s, a);
      AcceptableKept(env, ms, fetch, s);
      YieldFacts(ms, fetch, snaps[0].user.id, snaps[0]);
      assert OrgAllowed(t.tenants, snaps[0].tenant) <==> OrgAllowed(s.tenants, snaps[0].tenant) by { AcceptableThen(ms, fetch, Known(ms, s), s, t, snaps[0]); }
      if SyncSnapshot(env, t, snaps[0]).1.Ok? {
        assert P(t) && P(SyncSnapshot(env, t, snaps[0]).0);
        SyncAllSucceeds(env, ms, fetch, s, SyncSnapshot(env, t, snaps[0]).0, snaps[1..]);
      }
      assert snaps == [snaps[0]] + snaps[1..];
    }
  }

  lemma AcceptableThen(ms: seq<Mapping>, fetch: Fetch, K: set<string>, s: State, t: State, snap: Snapshot)
    requires AsAcceptable(ms, fetch, K, s, t) && FromDirectory(ms, fetch, K, snap)
    ensures OrgAllowed(t.tenants, snap.tenant) <==> OrgAllowed(s.tenants, snap.tenant)
  {
    hide FromDirectory, OrgAllowed;
  }

  lemma {:induction false} RevokeLostSucceeds(ms: seq<Mapping>, s: State, t: State, prior: seq<Principal>, current: seq<Principal>)
    requires AllRevocable(ms, s, prior) && s.principals.Keys <= t.principals.Keys
    ensures RevokeLost(ms, t, prior, current).1.Ok? && s.principals.Keys <= RevokeLost(ms, t, prior, current).0.principals.Keys
    decreases |prior|
  {
    hide Present, Managed, Covered;
    if prior != [] {
      var n := |prior| - 1;
      assert forall p :: p in prior[..n] ==> p in prior;
      RevokeLostSucceeds(ms, s, t, prior[..n], current);
      assert prior[n] in prior;
    }
  }

  lemma VisitSucceeds(env: Env, ms: seq<Mapping>, fetch: Fetch, s: State, t: State, u: string, prior: seq<Principal>)
    requires GoodMappings(ms) && AsAcceptable(ms, fetch, Known(ms, s), s, t) && u in Known(ms, s) && AllRevocable(ms, s, prior)
    ensures Visit(env, ms, fetch, t, u, prior).1.Ok? <==> SubjectReady(ms, fetch, s, u)
  {
    hide SyncUser, SyncReport, SyncAll, Known, RevokeLost, Yields, OrgAllowed, GoodMappings, Blank, AsAcceptable, AllRevocable;
    ReportSynced(env, ms, fetch, t, u);
    var answer := SyncUser(ms, fetch, u);
    if answer.Ok? {
      SyncAllSucceeds(env, ms, fetch, s, t, answer.value);
      var (t1, r) := SyncAll(env, t, answer.value);
      if r.Ok? {
        AcceptableKept(env, ms, fetch, s);
        SyncAllKeeps(env, ms, fetch, Known(ms, s), a => AsAcceptable(ms, fetch, Known(ms, s), s, a), t, answer.value);
        RevokeLostSucceeds(ms, s, t1, prior, r.value) by { RecordsStay(ms, fetch, Known(ms, s), s, t1); }
      }
    }
  }

  lemma RecordsStay(ms: seq<Mapping>, fetch: Fetch, K: set<string>, s: State, t: State)
    requires AsAcceptable(ms, fetch, K, s, t)
    ensures s.principals.Keys <= t.principals.Keys
  {
  }

  /** A walk succeeds exactly when every subject it visits can be fetched and moves no tenant to another
      organization, in whatever order. */
  lemma {:induction false} WalkSucceeds(env: Env, ms: seq<Mapping>, fetch: Fetch, s: State, known: Listing, order: seq<string>)
    requires Shaped(s) && GoodMappings(ms) && WalkOf(ms, s, known, order)
    ensures Walk(env, ms, fetch, s, known, order).1.Ok? <==> forall u :: u in order ==> SubjectReady(ms, fetch, s, u)
    decreases |order|
  {
    hide Shaped, GoodMappings, Lists, Visit, SubjectReady, AsAcceptable, AllRevocable, Known, KeptByAll;
    if order != [] {
      var n := |order| - 1;
      assert order == order[..n] + [order[n]];
      WalkSucceeds(env, ms, fetch, s, known, order[..n]);
      var (t, r) := Walk(env, ms, fetch, s, known, order[..n]);
      AcceptableKept(env, ms, fetch, s);
      assert AsAcceptable(ms, fetch, Known(ms, s), s, s) by { AcceptableNow(ms, fetch, Known(ms, s), s); }
      WalkKeeps(env, ms, fetch, s, a => AsAcceptable(ms, fetch, Known(ms, s), s, a), known, order[..n]);
      assert order[n] in Known(ms, s) by { ListedKnown(ms, s, known, order[n]); }
      PriorRevocable(ms, s, known, order[n]);
      if r.Ok? { VisitSucceeds(env, ms, fetch, s, t, order[n], known[order[n]]); }
    }
  }

  lemma AcceptableNow(ms: seq<Mapping>, fetch: Fetch, K: set<string>, s: State)
    ensures AsAcceptable(ms, fetch, K, s, s)
  {
  }

  lemma ListedKnown(ms: seq<Mapping>, s: State, known: Listing, u: string)
    requires Lists(ms, s, known) && u in known
    ensures u in Known(ms, s)
  {
    hide Known;
  }

  // ----- where covered records end up -----

  /** The record is what the snapshot projects to; only the status may differ, and not from a report
      that disables. */
  predicate Carries(env: Env, p: Principal, snap: Snapshot) {
    p == Projected(env, map[], Open, snap).(status := p.status) && (snap.user.disabled ==> p.status.Disabled?)
  }

  /** The record is disabled, or carries a current report about its identifier; and a disabled one has
      no session. */
  ghost predicate Settled(env: Env, ms: seq<Mapping>, fetch: Fetch, K: set<string>, t: State, id: string) {
    && id in t.principals
    && (t.principals[id].status.Disabled? ==> forall k :: k in t.sessions ==> t.sessions[k].principalID != id)
    && (t.principals[id].status.Disabled? || exists snap :: Reported(env, ms, fetch, K, id, snap) && Carries(env, t.principals[id], snap))
  }

  lemma SyncSettles(env: Env, ms: seq<Mapping>, fetch: Fetch, K: set<string>, t: State, snap: Snapshot, id: string)
    requires FromDirectory(ms, fetch, K, snap) && SyncSnapshot(env, t, snap).1.Ok?
    requires PID(env, snap) == id || Settled(env, ms, fetch, K, t, id)
    ensures Settled(env, ms, fetch, K, SyncSnapshot(env, t, snap).0, id)
  {
    hide PrincipalID, NormalizedDirectoryRoles, DirectoryTeams, FromDirectory, SyncAudits, TrimSpace;
    if PID(env, snap) == id { assert Reported(env, ms, fetch, K, id, snap) && Carries(env, SyncSnapshot(env, t, snap).1.value, snap); }
  }

  lemma RevokeSettles(env: Env, ms: seq<Mapping>, fetch: Fetch, K: set<string>, t: State, p: Principal, id: string)
    requires (p.id == id && id in t.principals) || Settled(env, ms, fetch, K, t, id)
    ensures Settled(env, ms, fetch, K, RevokeDirectoryPrincipal(t, p).0, id)
  {
    hide PrincipalID, NormalizedDirectoryRoles, DirectoryTeams, FromDirectory;
  }

  lemma SettledKept(env: Env, ms: seq<Mapping>, fetch: Fetch, s: State, id: string)
    ensures KeptByAll(env, ms, fetch, s, t => Settled(env, ms, fetch, Known(ms, s), t, id))
  {
    hide Known, FromDirectory, SyncSnapshot, RevokeDirectoryPrincipal, Settled, Revocable;
    forall a, snap | Settled(env, ms, fetch, Known(ms, s), a, id) && FromDirectory(ms, fetch, Known(ms, s), snap) && SyncSnapshot(env, a, snap).1.Ok?
      ensures Settled(env, ms, fetch, Known(ms, s), SyncSnapshot(env, a, snap).0, id)
    {
      SyncSettles(env, ms, fetch, Known(ms, s), a, snap, id);
    }
    forall a, p | Settled(env, ms, fetch, Known(ms, s), a, id) && Revocable(ms, s, p)
      ensures Settled(env, ms, fetch, Known(ms, s), RevokeDirectoryPrincipal(a, p).0, id)
    {
      RevokeSettles(env, ms, fetch, Known(ms, s), a, p, id);
    }
  }

  lemma {:induction false} RevokeLostSettles(env: Env, ms: seq<Mapping>, fetch: Fetch, K: set<string>, t: State, prior: seq<Principal>,
                                            current: seq<Principal>, p: Principal)
    requires p in prior && Managed(ms, p.tenantID) && !Present(current, p.id) && RevokeLost(ms, t, prior, current).1.Ok?
    ensures Settled(env, ms, fetch, K, RevokeLost(ms, t, prior, current).0, p.id)
    decreases |prior|
  {
    hide Present, Managed, RevokeDirectoryPrincipal, Settled;
    var n := |prior| - 1;
    var t1 := RevokeLost(ms, t, prior[..n], current).0;
    if p != prior[n] { RevokeLostSettles(env, ms, fetch, K, t, prior[..n], current, p); }
    else { RevokeFound(t1, p); }
    RevokeSettles(env, ms, fetch, K, t1, prior[n], p.id);
  }

  lemma RevokeFound(t: State, p: Principal)
    ensures RevokeDirectoryPrincipal(t, p).1.Unauthorized? <==> p.id in t.principals
  {
  }

  lemma {:induction false} SyncedIDs(env: Env, t: State, snaps: seq<Snapshot>, id: string)
    requires SyncAll(env, t, snaps).1.Ok?
    ensures Present(SyncAll(env, t, snaps).1.value, id) <==> exists snap :: snap in snaps && PID(env, snap) == id
    decreases |snaps|
  {
    hide PID;
    if snaps != [] {
      var (t1, r) := SyncSnapshot(env, t, snaps[0]);
      SyncedIDs(env, t1, snaps[1..], id);
      var rest := SyncAll(env, t1, snaps[1..]).1.value;
      assert r.value.id == PID(env, snaps[0]) by { ProjectedID(env, t.principals, t.registration, snaps[0]); }
      assert snaps == [snaps[0]] + snaps[1..] && SyncAll(env, t, snaps).1.value == [r.value] + rest;
      PresentMore(r.value, rest, id);
      if Present(rest, id) { var snap :| snap in snaps[1..] && PID(env, snap) == id; assert snap in snaps; }
    }
  }

  lemma PresentMore(p: Principal, rest: seq<Principal>, id: string)
    ensures Present([p] + rest, id) <==> p.id == id || Present(rest, id)
  {
    var all := [p] + rest;
    assert p in all && forall q :: q in rest ==> q in all;
  }

  lemma ProjectedID(env: Env, principals: map<string, Principal>, registration: Registration, snap: Snapshot)
    ensures Projected(env, principals, registration, snap).id == PID(env, snap)
  {
    hide NormalizedDirectoryRoles, DirectoryTeams;
  }

  /** A visit settles every prior record of a mapped tenant: it is reported, or revoked. */
  lemma VisitSettles(env: Env, ms: seq<Mapping>, fetch: Fetch, s: State, t: State, u: string, prior: seq<Principal>, p: Principal)
    requires u in Known(ms, s) && AllRevocable(ms, s, prior) && p in prior && Managed(ms, p.tenantID)
    requires Visit(env, ms, fetch, t, u, prior).1.Ok?
    ensures Settled(env, ms, fetch, Known(ms, s), Visit(env, ms, fetch, t, u, prior).0, p.id)
  {
    hide SyncUser, SyncReport, SyncAll, Known, RevokeLost, Yields, Settled, AllRevocable, PID, Managed, KeptBySync, KeptByRevoke;
    ReportSynced(env, ms, fetch, t, u);
    var K, answer := Known(ms, s), SyncUser(ms, fetch, u);
    var (t1, r) := SyncAll(env, t, answer.value);
    SyncedIDs(env, t, answer.value, p.id);
    if Present(r.value, p.id) {
      var P: State -> bool := a => Settled(env, ms, fetch, K, a, p.id);
      var snap :| snap in answer.value && PID(env, snap) == p.id;
      SettledKept(env, ms, fetch, s, p.id);
      forall a | SyncSnapshot(env, a, snap).1.Ok? ensures P(SyncSnapshot(env, a, snap).0) { SyncSettles(env, ms, fetch, K, a, snap, p.id); }
      SyncAllReaches(env, ms, fetch, K, P, t, answer.value, snap);
      RevokeLostKeeps(ms, s, P, t1, prior, r.value);
    } else {
      RevokeLostSettles(env, ms, fetch, K, t1, prior, r.value, p);
    }
  }

  /** Convergence, over every directory and every shaped store: after a successful reconciliation every
      stored record of a known subject in a mapped tenant is settled. */
  lemma CoveredSettles(env: Env, ms: seq<Mapping>, fetch: Fetch, s: State, known: Listing, order: seq<string>, t: State, id: string)
    requires Shaped(s) && Finished(env, ms, fetch, s, known, order, t)
    requires id in s.principals && Covered(ms, s, s.principals[id])
    ensures Settled(env, ms, fetch, Known(ms, s), t, id)
  {
    hide Walk, Visit, Settled, Known, KeptByAll, Managed, AllRevocable, PrincipalsShaped, SessionsShaped;
    var p := s.principals[id];
    var u := p.externalID;
    assert p.id == id by { OwnID(s, id); }
    assert p in known[u] by { ListedAll(ms, s, known, id); }
    PriorRevocable(ms, s, known, u);
    SettledKept(env, ms, fetch, s, id);
    forall a | Visit(env, ms, fetch, a, u, known[u]).1.Ok? ensures Settled(env, ms, fetch, Known(ms, s), Visit(env, ms, fetch, a, u, known[u]).0, id) {
      VisitSettles(env, ms, fetch, s, a, u, known[u], p);
    }
    WalkReaches(env, ms, fetch, s, a => Settled(env, ms, fetch, Known(ms, s), a, id), known, order, u);
  }

  lemma ListedAll(ms: seq<Mapping>, s: State, known: Listing, id: string)
    requires Lists(ms, s, known) && id in s.principals && s.principals[id].externalID in Known(ms, s)
    ensures s.principals[id].externalID in known && s.principals[id] in known[s.principals[id].externalID]
  {
    var u := s.principals[id].externalID;
    assert u != "";
    assert ListsAll(s.principals, u, known[u]);
  }

  /** Settled already, or still as it was. */
  ghost predicate SettledOrSame(env: Env, ms: seq<Mapping>, fetch: Fetch, K: set<string>, s: State, t: State, id: string) {
    id in t.principals ==> Settled(env, ms, fetch, K, t, id) || (id in s.principals && t.principals[id] == s.principals[id])
  }

  /** The same for the records that the reconciliation leaves, new ones included. */
  lemma AllSettle(env: Env, ms: seq<Mapping>, fetch: Fetch, s: State, known: Listing, order: seq<string>, t: State, id: string)
    requires Shaped(s) && Finished(env, ms, fetch, s, known, order, t)
    requires id in t.principals && Covered(ms, s, t.principals[id])
    ensures Settled(env, ms, fetch, Known(ms, s), t, id)
  {
    hide Known, Settled, FromDirectory, Revocable, Shaped, Lists, Walk, Projected, Covered, SyncAudits;
    var K := Known(ms, s);
    var P: State -> bool := a => SettledOrSame(env, ms, fetch, K, s, a, id);
    forall a, snap | P(a) && FromDirectory(ms, fetch, K, snap) && SyncSnapshot(env, a, snap).1.Ok? ensures P(SyncSnapshot(env, a, snap).0) {
      ProjectedID(env, a.principals, a.registration, snap);
      if PID(env, snap) == id || Settled(env, ms, fetch, K, a, id) { SyncSettles(env, ms, fetch, K, a, snap, id); }
    }
    forall a, p | P(a) && Revocable(ms, s, p) ensures P(RevokeDirectoryPrincipal(a, p).0) {
      if id in a.principals && (p.id == id || Settled(env, ms, fetch, K, a, id)) { RevokeSettles(env, ms, fetch, K, a, p, id); }
    }
    WalkKeeps(env, ms, fetch, s, P, known, order);
    if !Settled(env, ms, fetch, K, t, id) { CoveredSettles(env, ms, fetch, s, known, order, t, id); }
  }

  // ----- what vouches for it -----

  /** A principal justified by the directory: a mapping of its tenant finds its subject, a member and
      not blocked, and every role it has is the fallback, a default of the mapping, or mapped from an
      enabled role of the mapping's own organization. */
  ghost predicate Vouched(ms: seq<Mapping>, fetch: Fetch, p: Principal, m: Mapping, user: ExternalUser) {
    && m in ms && m.tenantID == p.tenantID
    && GetUser(fetch, m.organization, p.externalID) == Ok(Some(user)) && Member(m, user)
    && !user.forbidden && !user.deleted && user.deletedTime == ""
    && forall grant :: grant in p.roles ==> RoleJustified(m, user, grant)
  }

  /** Whoever is settled and not disabled is vouched for by the directory, role by role. */
  lemma EnabledIsVouched(env: Env, ms: seq<Mapping>, fetch: Fetch, K: set<string>, t: State, id: string)
    requires Settled(env, ms, fetch, K, t, id) && !t.principals[id].status.Disabled?
    ensures exists m, user :: Vouched(ms, fetch, t.principals[id], m, user)
  {
    hide NormalizeRoleKey, RoleJustified, NormalizedDirectoryRoles, DirectoryTeams, Member;
    var p := t.principals[id];
    var snap :| Reported(env, ms, fetch, K, id, snap) && Carries(env, p, snap);
    var i :| 0 <= i < |ms| && SnapAt(ms, fetch, i, snap.user.id) == Some(snap);
    var m := ms[i];
    var user := GetUser(fetch, m.organization, snap.user.id).value.value;
    forall grant | grant in p.roles ensures RoleJustified(m, user, grant) {
      ProjectedRolesJustified(env, map[], Open, m, user, grant);
    }
    assert Vouched(ms, fetch, p, m, user);
  }

  /** In no mapping of the record's tenant does the directory find its subject with every required group. */
  ghost predicate NoMember(ms: seq<Mapping>, fetch: Fetch, p: Principal) {
    forall m :: m in ms && m.tenantID == p.tenantID ==>
      match fetch(m.organization, p.externalID)
      case Found(user) => exists i :: 0 <= i < |m.requiredGroups| && m.requiredGroups[i] !in user.groups
      case _ => true
  }

  /** Afterwards a record whose subject lacks even one required group of each mapping of its tenant, or is
      not found there, is disabled and signed out. */
  lemma NonMembersOut(env: Env, ms: seq<Mapping>, fetch: Fetch, s: State, known: Listing, order: seq<string>, t: State, id: string)
    requires Shaped(s) && Finished(env, ms, fetch, s, known, order, t)
    requires id in t.principals && Covered(ms, s, t.principals[id]) && NoMember(ms, fetch, t.principals[id])
    ensures t.principals[id].status.Disabled? && forall k :: k in t.sessions ==> t.sessions[k].principalID != id
  {
    hide Shaped, Walk, Lists, Known, Reported, Carries, RoleJustified, Managed;
    AllSettle(env, ms, fetch, s, known, order, t, id);
    VouchedIsMember(ms, fetch, t.principals[id]);
    if !t.principals[id].status.Disabled? { EnabledIsVouched(env, ms, fetch, Known(ms, s), t, id); }
  }

  lemma VouchedIsMember(ms: seq<Mapping>, fetch: Fetch, p: Principal)
    ensures (exists m, user :: Vouched(ms, fetch, p, m, user)) ==> !NoMember(ms, fetch, p)
  {
    hide RoleJustified;
    if m, user :| Vouched(ms, fetch, p, m, user) {
      assert m in ms && m.tenantID == p.tenantID;
      assert forall i :: 0 <= i < |m.requiredGroups| ==> m.requiredGroups[i] in m.requiredGroups;
    }
  }

  // ----- what it leaves alone -----

  /** The record, and the sessions of its identifier, are as they were. */
  ghost predicate Alone(s: State, t: State, id: string) {
    && t.registration == s.registration && id in s.principals && id in t.principals && t.principals[id] == s.principals[id]
    && forall k :: k in s.sessions && s.sessions[k].principalID == id ==> k in t.sessions && t.sessions[k] == s.sessions[k]
  }

  lemma UnreportedAlone(env: Env, ms: seq<Mapping>, fetch: Fetch, s: State, known: Listing, order: seq<string>, id: string)
    requires Shaped(s) && WalkOf(ms, s, known, order) && id in s.principals && !Covered(ms, s, s.principals[id])
    requires forall snap :: FromDirectory(ms, fetch, Known(ms, s), snap) ==> PID(env, snap) != id
    ensures Alone(s, Walk(env, ms, fetch, s, known, order).0, id)
  {
    hide Known, FromDirectory, Shaped, Lists, Walk, Projected, Managed, SyncAudits, TrimSpace;
    var P: State -> bool := a => Alone(s, a, id);
    forall a, snap | P(a) && FromDirectory(ms, fetch, Known(ms, s), snap) && SyncSnapshot(env, a, snap).1.Ok?
      ensures P(SyncSnapshot(env, a, snap).0)
    {
      ProjectedID(env, a.principals, a.registration, snap);
    }
    assert KeptByRevoke(ms, s, P);
    WalkKeeps(env, ms, fetch, s, P, known, order);
  }

  /** The record is about a known subject in a mapped tenant. */
  predicate Taken(ms: seq<Mapping>, s: State, t: State, id: string) {
    id in t.principals && Covered(ms, s, t.principals[id]) && t.principals[id].kind.User?
  }

  lemma SyncTakes(env: Env, ms: seq<Mapping>, fetch: Fetch, s: State, a: State, snap: Snapshot, id: string)
    requires FromDirectory(ms, fetch, Known(ms, s), snap) && SyncSnapshot(env, a, snap).1.Ok? && (PID(env, snap) == id || Taken(ms, s, a, id))
    ensures Taken(ms, s, SyncSnapshot(env, a, snap).0, id)
  {
    hide Known, Yields, PrincipalID, NormalizedDirectoryRoles, DirectoryTeams, SyncAudits, TrimSpace;
    YieldFacts(ms, fetch, snap.user.id, snap);
  }

  lemma TakenKept(env: Env, ms: seq<Mapping>, fetch: Fetch, s: State, id: string)
    ensures KeptByAll(env, ms, fetch, s, a => Taken(ms, s, a, id))
  {
    hide Known, FromDirectory, Projected, Managed, SyncSnapshot;
    forall a, snap | Taken(ms, s, a, id) && FromDirectory(ms, fetch, Known(ms, s), snap) && SyncSnapshot(env, a, snap).1.Ok?
      ensures Taken(ms, s, SyncSnapshot(env, a, snap).0, id)
    {
      SyncTakes(env, ms, fetch, s, a, snap, id);
    }
  }

  lemma ReportedTaken(env: Env, ms: seq<Mapping>, fetch: Fetch, s: State, known: Listing, order: seq<string>, t: State, id: string, snap: Snapshot)
    requires Shaped(s) && Finished(env, ms, fetch, s, known, order, t) && Reported(env, ms, fetch, Known(ms, s), id, snap)
    ensures Taken(ms, s, t, id)
  {
    hide Walk, Visit, Known, KeptByAll, Shaped, Taken, SyncUser, SyncReport, SyncAll, RevokeLost, AllRevocable, Yields, PID;
    var u := snap.user.id;
    var P: State -> bool := a => Taken(ms, s, a, id);
    PriorRevocable(ms, s, known, u);
    TakenKept(env, ms, fetch, s, id);
    forall a | Visit(env, ms, fetch, a, u, known[u]).1.Ok? ensures P(Visit(env, ms, fetch, a, u, known[u]).0) {
      VisitTakes(env, ms, fetch, s, a, known[u], id, snap);
    }
    WalkReaches(env, ms, fetch, s, P, known, order, u);
  }

  lemma VisitTakes(env: Env, ms: seq<Mapping>, fetch: Fetch, s: State, a: State, prior: seq<Principal>, id: string, snap: Snapshot)
    requires Reported(env, ms, fetch, Known(ms, s), id, snap) && AllRevocable(ms, s, prior) && Visit(env, ms, fetch, a, snap.user.id, prior).1.Ok?
    ensures Taken(ms, s, Visit(env, ms, fetch, a, snap.user.id, prior).0, id)
  {
    hide Known, Taken, SyncUser, SyncReport, SyncAll, RevokeLost, AllRevocable, Yields, PID, KeptBySync, KeptByRevoke;
    var u := snap.user.id;
    var P: State -> bool := b => Taken(ms, s, b, id);
    ReportSynced(env, ms, fetch, a, u);
    TakenKept(env, ms, fetch, s, id);
    var snaps := SyncUser(ms, fetch, u).value;
    forall b | SyncSnapshot(env, b, snap).1.Ok? ensures P(SyncSnapshot(env, b, snap).0) { SyncTakes(env, ms, fetch, s, b, snap, id); }
    SyncAllReaches(env, ms, fetch, Known(ms, s), P, a, snaps, snap);
    var (t1, r) := SyncAll(env, a, snaps);
    RevokeLostKeeps(ms, s, P, t1, prior, r.value);
  }

  /** Exactly which records outside the mapped tenants, or of unknown subjects, a successful
      reconciliation leaves alone: those whose identifier no yielded snapshot of a known subject has.
      Any other is taken over: it becomes a record of a known subject in a mapped tenant. */
  lemma OutsideExactly(env: Env, ms: seq<Mapping>, fetch: Fetch, s: State, known: Listing, order: seq<string>, t: State, id: string)
    requires Shaped(s) && Finished(env, ms, fetch, s, known, order, t)
    requires id in s.principals && !Covered(ms, s, s.principals[id])
    ensures id in t.principals
    ensures t.principals[id] == s.principals[id] <==> !exists snap :: Reported(env, ms, fetch, Known(ms, s), id, snap)
    ensures t.principals[id] == s.principals[id] <==> Alone(s, t, id)
    ensures t.principals[id] != s.principals[id] ==> Taken(ms, s, t, id)
  {
    hide Walk, Known, FromDirectory, Shaped, PID, Managed, Covered;
    if snap :| Reported(env, ms, fetch, Known(ms, s), id, snap) {
      ReportedTaken(env, ms, fetch, s, known, order, t, id, snap);
    } else {
      forall snap | FromDirectory(ms, fetch, Known(ms, s), snap) ensures PID(env, snap) != id {
        assert !Reported(env, ms, fetch, Known(ms, s), id, snap);
      }
      UnreportedAlone(env, ms, fetch, s, known, order, id);
    }
  }

  /** Finished or not, every new record is a user of a known subject in a mapped tenant. */
  lemma NewRecords(env: Env, ms: seq<Mapping>, fetch: Fetch, s: State, known: Listing, order: seq<string>, id: string)
    requires Shaped(s) && WalkOf(ms, s, known, order)
    ensures var t := Walk(env, ms, fetch, s, known, order).0; id in t.principals && id !in s.principals ==> Taken(ms, s, t, id)
  {
    hide Walk, Known, FromDirectory, Shaped, Projected, Lists, Taken;
    var P: State -> bool := (a: State) => id in a.principals && id !in s.principals ==> Taken(ms, s, a, id);
    TakenKept(env, ms, fetch, s, id);
    forall a, snap | P(a) && FromDirectory(ms, fetch, Known(ms, s), snap) && SyncSnapshot(env, a, snap).1.Ok?
      ensures P(SyncSnapshot(env, a, snap).0)
    {
      ProjectedID(env, a.principals, a.registration, snap);
      if PID(env, snap) == id || Taken(ms, s, a, id) { SyncTakes(env, ms, fetch, s, a, snap, id); }
    }
    forall a, p | P(a) && Revocable(ms, s, p) ensures P(RevokeDirectoryPrincipal(a, p).0) {
      var b: State -> bool := a => Taken(ms, s, a, id);
      assert b(a) ==> b(RevokeDirectoryPrincipal(a, p).0);
    }
    WalkKeeps(env, ms, fetch, s, P, known, order);
  }
}
