/** Reconciliations among the calls of a service: each is a stretch of the run of syncs and revocations,
    so that the theorems about runs reach it, and what it meets in states that runs reach. */
module Directories {
  import opened Text
  import opened Iam
  import opened Identity
  import opened Casdoor
  import opened Runs
  import opened Histories
  import opened Walks
  import opened Outcomes
  import opened Reconcile

  /** What the directory reports, as calls of the service consult it. */
  function Directory(ms: seq<Mapping>, fetch: Fetch): Source {
    u => SyncUser(ms, fetch, u)
  }

  /** A call of a reconciliation of `s`. */
  ghost predicate ReconcileOp(ms: seq<Mapping>, fetch: Fetch, s: State, op: Op) {
    || (op.Sync? && op.subject in Known(ms, s) && op.source == Directory(ms, fetch))
    || (op.Revoke? && Revocable(ms, s, op.principal))
  }

  /** The run goes on from `before` by calls of a reconciliation of `s`, and ends in `t`. */
  ghost predicate Continues(env: Env, ms: seq<Mapping>, fetch: Fetch, s: State, before: Run, run: Run, t: State) {
    && IsRun(env, run) && run.states[|run.ops|] == t
    && before.states <= run.states && before.ops <= run.ops && before.effects <= run.effects
    && forall i :: |before.ops| <= i < |run.ops| ==> ReconcileOp(ms, fetch, s, run.ops[i])
  }

  lemma OneMore(env: Env, ms: seq<Mapping>, fetch: Fetch, s: State, before: Run, run: Run, t: State, op: Op) returns (more: Run)
    requires Continues(env, ms, fetch, s, before, run, t) && ReconcileOp(ms, fetch, s, op)
    ensures Continues(env, ms, fetch, s, before, more, Apply(env, t, op))
  {
    hide Apply, EffectOf, ReconcileOp, Linked;
    RunMore(env, run, op, Apply(env, t, op));
    more := Run(run.states + [Apply(env, t, op)], run.ops + [op], run.effects + [EffectOf(env, t, op)]);
  }

  lemma SyncApplied(env: Env, ms: seq<Mapping>, fetch: Fetch, t: State, u: string)
    ensures Apply(env, t, Sync(u, Directory(ms, fetch))) == SyncReport(env, t, SyncUser(ms, fetch, u), u).0
  {
    hide SyncAll, Collect, TrimSpace;
  }

  lemma RevokeApplied(env: Env, t: State, p: Principal)
    ensures Apply(env, t, Revoke(p)) == RevokeDirectoryPrincipal(t, p).0
  {
    hide RevokeDirectoryPrincipal;
  }

  lemma {:induction false} RevokeLostRun(env: Env, ms: seq<Mapping>, fetch: Fetch, s: State, before: Run, start: Run, t: State,
                                        prior: seq<Principal>, current: seq<Principal>) returns (run: Run)
    requires Continues(env, ms, fetch, s, before, start, t) && AllRevocable(ms, s, prior)
    ensures Continues(env, ms, fetch, s, before, run, RevokeLost(ms, t, prior, current).0)
    decreases |prior|
  {
    hide Continues, Apply, Present, Managed, Revocable, RevokeDirectoryPrincipal;
    run := start;
    if prior != [] {
      var n := |prior| - 1;
      assert forall p :: p in prior[..n] ==> p in prior;
      run := RevokeLostRun(env, ms, fetch, s, before, start, t, prior[..n], current);
      var (t1, r) := RevokeLost(ms, t, prior[..n], current);
      var p := prior[n];
      assert p in prior;
      if r.Ok? && Managed(ms, p.tenantID) && !Present(current, p.id) {
        run := OneMore(env, ms, fetch, s, before, run, t1, Revoke(p));
        RevokeApplied(env, t1, p);
      }
    }
  }

  lemma VisitRun(env: Env, ms: seq<Mapping>, fetch: Fetch, s: State, before: Run, start: Run, t: State, u: string, prior: seq<Principal>) returns (run: Run)
    requires Continues(env, ms, fetch, s, before, start, t) && AllRevocable(ms, s, prior) && u in Known(ms, s)
    ensures Continues(env, ms, fetch, s, before, run, Visit(env, ms, fetch, t, u, prior).0)
  {
    hide Continues, Apply, RevokeLost, AllRevocable, Known, SyncUser, SyncReport;
    run := OneMore(env, ms, fetch, s, before, start, t, Sync(u, Directory(ms, fetch)));
    SyncApplied(env, ms, fetch, t, u);
    var (t1, r) := SyncReport(env, t, SyncUser(ms, fetch, u), u);
    if r.Ok? { run := RevokeLostRun(env, ms, fetch, s, before, run, t1, prior, r.value); }
  }

  /** A reconciliation, finished or not, is a stretch of calls of the run: directory syncs of known
      subjects and revocations of their records. */
  lemma {:induction false} WalkRun(env: Env, ms: seq<Mapping>, fetch: Fetch, s: State, before: Run, known: Listing, order: seq<string>) returns (run: Run)
    requires Shaped(s) && WalkOf(ms, s, known, order) && IsRun(env, before) && before.states[|before.ops|] == s
    ensures Continues(env, ms, fetch, s, before, run, Walk(env, ms, fetch, s, known, order).0)
    decreases |order|
  {
    hide Continues, Visit, Shaped, ListsAll, Known, AllRevocable, Linked;
    if order == [] {
      run := before;
      assert Continues(env, ms, fetch, s, before, run, s) by { Same(env, ms, fetch, before); }
    } else {
      var n := |order| - 1;
      var u := order[n];
      assert order == order[..n] + [u];
      run := WalkRun(env, ms, fetch, s, before, known, order[..n]);
      PriorRevocable(ms, s, known, u);
      var (t, r) := Walk(env, ms, fetch, s, known, order[..n]);
      if r.Ok? { run := VisitRun(env, ms, fetch, s, before, run, t, u, known[u]); }
    }
  }

  lemma Same(env: Env, ms: seq<Mapping>, fetch: Fetch, run: Run)
    requires IsRun(env, run)
    ensures Continues(env, ms, fetch, run.states[|run.ops|], run, run, run.states[|run.ops|])
  {
    hide Linked;
  }

  /** The reports of a reconciliation stay among given pairs if those of mapped tenants with subjects the
      directory finds do. */
  lemma DirectoryWithin(ids: Ids, ms: seq<Mapping>, fetch: Fetch)
    requires forall m, u :: m in ms && fetch(m.organization, u).Found? ==> ids(m.tenantID, u)
    ensures SourceWithin(ids, Directory(ms, fetch))
  {
    hide Member;
    forall u, snap | Directory(ms, fetch)(u).Ok? && snap in Directory(ms, fetch)(u).value ensures ids(snap.tenant.id, snap.user.id) {
      CollectYields(ms, fetch, u, snap);
      var i :| 0 <= i < |ms| && SnapAt(ms, fetch, i, u) == Some(snap);
      assert ms[i] in ms && fetch(ms[i].organization, u).Found?;
    }
  }

  lemma ContinuesWithin(env: Env, ids: Ids, ms: seq<Mapping>, fetch: Fetch, s: State, before: Run, run: Run, t: State)
    requires Continues(env, ms, fetch, s, before, run, t) && RunWithin(ids, before.ops) && SourceWithin(ids, Directory(ms, fetch))
    ensures RunWithin(ids, run.ops)
  {
    hide SourceWithin, Known, Revocable, Linked;
    forall i | 0 <= i < |run.ops| ensures ReportsWithin(ids, run.ops[i]) {
      if i < |before.ops| { assert before.ops[i] == run.ops[i]; } else { assert ReconcileOp(ms, fetch, s, run.ops[i]); }
    }
  }

  lemma LastShaped(env: Env, ids: Ids, run: Run)
    requires FromEmpty(env, run)
    ensures Shaped(run.states[|run.ops|])
  {
    hide Shaped, StepWithin, Linked;
    EmptyShaped(env, ids);
    if run.ops != [] { StepAt(env, ids, run, |run.ops| - 1); }
  }

  /** After any run from an empty store, whose reports and the directory's stay among separate pairs, a
      reconciliation, finished or not, leaves every session bound. */
  lemma ReconcileBinds(env: Env, ids: Ids, ms: seq<Mapping>, fetch: Fetch, before: Run, known: Listing, order: seq<string>)
    requires FromEmpty(env, before) && RunWithin(ids, before.ops) && Separate(env, ids) && SourceWithin(ids, Directory(ms, fetch))
    requires WalkOf(ms, before.states[|before.ops|], known, order)
    ensures Bound(env, ids, Walk(env, ms, fetch, before.states[|before.ops|], known, order).0)
  {
    hide Shaped, Bound, Separate, SourceWithin, Continues, Lists, Walk, Linked, RunWithin;
    var s := before.states[|before.ops|];
    LastShaped(env, ids, before);
    var run := WalkRun(env, ms, fetch, s, before, known, order);
    ContinuesWithin(env, ids, ms, fetch, s, before, run, Walk(env, ms, fetch, s, known, order).0);
    assert FromEmpty(env, run) && run.states[|run.ops|] == Walk(env, ms, fetch, s, known, order).0 by { ContinuesFromEmpty(env, ms, fetch, s, before, run, Walk(env, ms, fetch, s, known, order).0); }
    SessionsAlwaysBound(env, ids, run, |run.ops|);
  }

  lemma ContinuesFromEmpty(env: Env, ms: seq<Mapping>, fetch: Fetch, s: State, before: Run, run: Run, t: State)
    requires FromEmpty(env, before) && Continues(env, ms, fetch, s, before, run, t)
    ensures FromEmpty(env, run) && run.states[|run.ops|] == t
  {
    hide Linked, ReconcileOp;
    assert before.states[0] == run.states[0];
  }

  // ----- a record that a reconciliation should not have touched -----

  const STRAY_MAPPINGS := [Mapping("o", "t", "", "", [], [], map[]), Mapping("o", "v", "", "", [], [], map[])]

  /** Everyone asked for is found, in the organization asked. */
  const EVERYONE: Fetch := (org, u) => Found(ExternalUser(u, org, "", "", "", false, false, false, "", [], []))

  lemma StrayAccepted()
    ensures AcceptableMappings(STRAY_MAPPINGS) && GoodMappings(STRAY_MAPPINGS)
    ensures !Managed(STRAY_MAPPINGS, " t") && Managed(STRAY_MAPPINGS, "v")
  {
    hide TrimSpace;
    TrimsItself("o");
    TrimsItself("t");
    TrimsItself("v");
    assert STRAY_MAPPINGS[1] in STRAY_MAPPINGS;
  }

  /** Two syncs from an empty store: one user in tenant " t" and in tenant "v". */
  lemma StrayRun(env: Env) returns (run: Run)
    requires IdealDigest(env)
    ensures FromEmpty(env, run) && run.ops == [SyncOne(Report(" t", "u")), SyncOne(Report("v", "u"))]
    ensures var s, id, other := run.states[2], PrincipalID(env, " t", "u"), PrincipalID(env, "v", "u");
      && id != other && s.principals.Keys == {id, other}
      && s.principals[id].tenantID == " t" && s.principals[id].externalID == "u"
      && s.principals[other].tenantID == "v" && s.principals[other].externalID == "u" && s.principals[other].kind.User?
      && (forall t :: t in s.tenants ==> s.tenants[t].orgName == "")
  {
    hide SyncSnapshot, PrincipalID, Projected, Apply, EffectOf, TrimSpace, IdealDigest, NormalizedDirectoryRoles;
    var a, b := SyncOne(Report(" t", "u")), SyncOne(Report("v", "u"));
    assert " t" == [' '] + "t";
    TrimsItself("t");
    TrimsItself("u");
    TrimsItself("v");
    PrincipalIDExactly(env, " t", "u", "v", "u");
    var s0 := EMPTY_STORE;
    SyncReported(env, s0, " t", "u");
    var s1 := SyncSnapshot(env, s0, Report(" t", "u")).0;
    SyncReported(env, s1, "v", "u");
    var s2 := SyncSnapshot(env, s1, Report("v", "u")).0;
    ProjectedOwner(env, s0, Report(" t", "u"));
    ProjectedOwner(env, s1, Report("v", "u"));
    run := Run([s0, s1, s2], [a, b], [EffectOf(env, s0, a), EffectOf(env, s1, b)]);
    SyncOneApplied(env, s0, Report(" t", "u"));
    SyncOneApplied(env, s1, Report("v", "u"));
    RunOfTwo(env, run);
  }

  lemma RunOfTwo(env: Env, run: Run)
    requires |run.ops| == |run.effects| == 2 && |run.states| == 3
    requires run.states[1] == Apply(env, run.states[0], run.ops[0]) && run.states[2] == Apply(env, run.states[1], run.ops[1])
    requires forall i :: 0 <= i < 2 ==> run.effects[i] == EffectOf(env, run.states[i], run.ops[i])
    ensures IsRun(env, run)
  {
    hide Apply, EffectOf;
  }

  /** A reachable state, accepted mappings and a directory for which reconciling takes a record out of a
      tenant that is not mapped: " t" is not, but "t" is, and the user is also known through "v". */
  lemma StrayTaken(env: Env) returns (run: Run)
    requires IdealDigest(env)
    ensures FromEmpty(env, run) && |run.ops| == 2 && AcceptableMappings(STRAY_MAPPINGS)
    ensures var s, id := run.states[2], PrincipalID(env, " t", "u");
      && id in s.principals && s.principals[id].tenantID == " t" && !Managed(STRAY_MAPPINGS, " t")
      && Reconcilable(STRAY_MAPPINGS, EVERYONE, s)
      && forall t :: Reconciled(env, STRAY_MAPPINGS, EVERYONE, s, t) ==> id in t.principals && t.principals[id].tenantID != " t"
  {
    hide PrincipalID, TrimSpace, Shaped, Walk, Linked, AcceptableMappings, GoodMappings, ListsAll, IdealDigest, Apply, EffectOf, Alone, Reported;
    var ms, fetch := STRAY_MAPPINGS, EVERYONE;
    run := StrayRun(env);
    var s, id := run.states[2], PrincipalID(env, " t", "u");
    StrayAccepted();
    LastShaped(env, CleanIds, run);
    assert Known(ms, s) == {"u"} by {
      assert s.principals[PrincipalID(env, "v", "u")].externalID == "u" && IsSubject(ms, s.principals[PrincipalID(env, "v", "u")]);
    }
    StrayReady(s);
    StrayReported(env);
    forall t | Reconciled(env, ms, fetch, s, t) ensures id in t.principals && t.principals[id].tenantID != " t" {
      var known, order :| Complete(env, ms, fetch, s, known, order, t);
      OutsideExactly(env, ms, fetch, s, known, order, t, id);
    }
  }

  lemma StrayReported(env: Env)
    ensures exists snap :: Reported(env, STRAY_MAPPINGS, EVERYONE, {"u"}, PrincipalID(env, " t", "u"), snap)
  {
    hide PrincipalID;
    var snap := MakeSnapshot(STRAY_MAPPINGS[0], EVERYONE("o", "u").user);
    assert SnapAt(STRAY_MAPPINGS, EVERYONE, 0, "u") == Some(snap);
    PartsCollide(env);
    assert Reported(env, STRAY_MAPPINGS, EVERYONE, {"u"}, PrincipalID(env, " t", "u"), snap);
  }

  lemma StrayReady(s: State)
    requires forall t :: t in s.tenants ==> s.tenants[t].orgName == ""
    ensures SubjectReady(STRAY_MAPPINGS, EVERYONE, s, "u")
  {
    hide TrimSpace;
    TrimsItself("u");
    var ms := STRAY_MAPPINGS;
    assert ms[1..] == [ms[1]] && ms[1..][1..] == [];
  }
}
