/** A whole reconciliation, step by step and in any order, over any mappings, directory and store: when
    it succeeds, what it keeps, what it settles, what it leaves alone, and that it is a run of calls.
    Nothing here assumes that identifiers are well chosen. */
module Walks {
  import opened Text
  import opened Iam
  import opened Identity
  import opened Casdoor

  type Listing = map<string, seq<Principal>>

  /** Records stored for a subject, as a listing returns them. */
  ghost predicate ListsAll(principals: map<string, Principal>, subject: string, ps: seq<Principal>) {
    forall p :: p in ps <==> exists id :: id in principals && principals[id] == p && p.externalID != "" && p.externalID == subject
  }

  /** The known subjects, each with the records stored for it. */
  ghost predicate Lists(ms: seq<Mapping>, s: State, known: Listing) {
    known.Keys == Known(ms, s) && forall u :: u in known ==> ListsAll(s.principals, u, known[u])
  }

  predicate Present(current: seq<Principal>, id: string) {
    exists p :: p in current && p.id == id
  }

  /** Revokes the prior records of mapped tenants that are no longer present. */
  function RevokeLost(ms: seq<Mapping>, t: State, prior: seq<Principal>, current: seq<Principal>): (State, Result<(), Error>)
    decreases |prior|
  {
    if prior == [] then (t, Ok(()))
    else
      var (t1, r) := RevokeLost(ms, t, prior[..|prior| - 1], current);
      var p := prior[|prior| - 1];
      if r.Err? || !Managed(ms, p.tenantID) || Present(current, p.id) then (t1, r)
      else
        var (t2, e) := RevokeDirectoryPrincipal(t1, p);
        (t2, if e.Unauthorized? then Ok(()) else Err(e))
  }

  /** One pass of the loop: sync a subject, then revoke what it lost. */
  function Visit(env: Env, ms: seq<Mapping>, fetch: Fetch, t: State, u: string, prior: seq<Principal>): (State, Result<(), Error>) {
    var (t1, r) := SyncReport(env, t, SyncUser(ms, fetch, u), u);
    if r.Err? then (t1, Err(r.error)) else RevokeLost(ms, t1, prior, r.value)
  }

  /** The loop over the known subjects, in the given order, up to the first failure. */
  function Walk(env: Env, ms: seq<Mapping>, fetch: Fetch, s: State, known: Listing, order: seq<string>): (State, Result<(), Error>)
    requires forall u :: u in order ==> u in known
    decreases |order|
  {
    if order == [] then (s, Ok(()))
    else
      var u := order[|order| - 1];
      var (t, r) := Walk(env, ms, fetch, s, known, order[..|order| - 1]);
      if r.Err? then (t, r) else Visit(env, ms, fetch, t, u, known[u])
  }

  // ----- two induction principles -----

  /** Every sync of a snapshot that the directory yields for a subject in `K` keeps `P`. */
  ghost predicate KeptBySync(env: Env, ms: seq<Mapping>, fetch: Fetch, K: set<string>, P: State -> bool) {
    forall a, snap {:trigger P(a), SyncSnapshot(env, a, snap)} ::
      P(a) && FromDirectory(ms, fetch, K, snap) && SyncSnapshot(env, a, snap).1.Ok? ==> P(SyncSnapshot(env, a, snap).0)
  }

  /** A stored record of a known subject in a mapped tenant. */
  predicate Covered(ms: seq<Mapping>, s: State, p: Principal) {
    Managed(ms, p.tenantID) && p.externalID in Known(ms, s)
  }

  predicate Revocable(ms: seq<Mapping>, s: State, p: Principal) {
    p.id in s.principals && s.principals[p.id] == p && Covered(ms, s, p)
  }

  ghost predicate KeptByRevoke(ms: seq<Mapping>, s: State, P: State -> bool) {
    forall a, p {:trigger P(a), RevokeDirectoryPrincipal(a, p)} ::
      P(a) && Revocable(ms, s, p) ==> P(RevokeDirectoryPrincipal(a, p).0)
  }

  ghost predicate KeptByAll(env: Env, ms: seq<Mapping>, fetch: Fetch, s: State, P: State -> bool) {
    KeptBySync(env, ms, fetch, Known(ms, s), P) && KeptByRevoke(ms, s, P)
  }

  /** What syncing a known subject runs: its yielded snapshots, one after the other. */
  lemma ReportSynced(env: Env, ms: seq<Mapping>, fetch: Fetch, t: State, u: string)
    ensures var answer := SyncUser(ms, fetch, u);
      && SyncReport(env, t, answer, u) == (if answer.Err? then (t, Err(answer.error)) else SyncAll(env, t, answer.value))
      && (answer.Ok? ==> !Blank(u) && forall snap :: snap in answer.value <==> snap.user.id == u && Yields(ms, fetch, u, snap))
  {
    hide Yields, SyncAll, Blank;
    var answer := SyncUser(ms, fetch, u);
    if answer.Ok? {
      forall snap ensures snap in answer.value <==> snap.user.id == u && Yields(ms, fetch, u, snap) {
        CollectYields(ms, fetch, u, snap);
        if snap in answer.value { YieldFacts(ms, fetch, u, snap); }
      }
    }
  }

  lemma {:induction false} SyncAllKeeps(env: Env, ms: seq<Mapping>, fetch: Fetch, K: set<string>, P: State -> bool, t: State, snaps: seq<Snapshot>)
    requires P(t) && KeptBySync(env, ms, fetch, K, P) && forall snap :: snap in snaps ==> FromDirectory(ms, fetch, K, snap)
    ensures P(SyncAll(env, t, snaps).0)
    decreases |snaps|
  {
    hide SyncSnapshot, FromDirectory;
    if snaps != [] {
      SyncFailed(env, t, snaps[0]);
      var (t1, r) := SyncSnapshot(env, t, snaps[0]);
      if r.Ok? { SyncAllKeeps(env, ms, fetch, K, P, t1, snaps[1..]); }
    }
  }

  lemma SyncFailed(env: Env, t: State, snap: Snapshot)
    ensures SyncSnapshot(env, t, snap).1.Err? ==> SyncSnapshot(env, t, snap).0 == t
  {
  }

  /** Whatever a sync of `snap` establishes and every sync keeps holds after a batch with `snap` in it. */
  lemma {:induction false} SyncAllReaches(env: Env, ms: seq<Mapping>, fetch: Fetch, K: set<string>, P: State -> bool, t: State, snaps: seq<Snapshot>, snap: Snapshot)
    requires KeptBySync(env, ms, fetch, K, P) && (forall x :: x in snaps ==> FromDirectory(ms, fetch, K, x))
    requires forall a {:trigger SyncSnapshot(env, a, snap)} :: SyncSnapshot(env, a, snap).1.Ok? ==> P(SyncSnapshot(env, a, snap).0)
    requires snap in snaps && SyncAll(env, t, snaps).1.Ok?
    ensures P(SyncAll(env, t, snaps).0)
    decreases |snaps|
  {
    hide SyncSnapshot, FromDirectory, KeptBySync;
    var t1 := SyncSnapshot(env, t, snaps[0]).0;
    if snap == snaps[0] {
      SyncAllKeeps(env, ms, fetch, K, P, t1, snaps[1..]);
    } else {
      SyncAllReaches(env, ms, fetch, K, P, t1, snaps[1..], snap);
    }
  }

  ghost predicate AllRevocable(ms: seq<Mapping>, s: State, prior: seq<Principal>) {
    forall p :: p in prior && Managed(ms, p.tenantID) ==> Revocable(ms, s, p)
  }

  lemma PriorRevocable(ms: seq<Mapping>, s: State, known: Listing, u: string)
    requires Shaped(s) && Lists(ms, s, known) && u in known
    ensures AllRevocable(ms, s, known[u])
  {
    hide Known;
    assert ListsAll(s.principals, u, known[u]);
    forall p | p in known[u] && Managed(ms, p.tenantID) ensures Revocable(ms, s, p) {
      var id :| id in s.principals && s.principals[id] == p && p.externalID == u;
      assert RecordShaped(id, s.principals[id]);
    }
  }

  lemma {:induction false} RevokeLostKeeps(ms: seq<Mapping>, s: State, P: State -> bool, t: State, prior: seq<Principal>, current: seq<Principal>)
    requires P(t) && KeptByRevoke(ms, s, P) && AllRevocable(ms, s, prior)
    ensures P(RevokeLost(ms, t, prior, current).0)
    decreases |prior|
  {
    hide RevokeDirectoryPrincipal, Revocable, Managed, Present;
    if prior != [] {
      var n := |prior| - 1;
      assert forall p :: p in prior[..n] ==> p in prior;
      RevokeLostKeeps(ms, s, P, t, prior[..n], current);
      assert prior[n] in prior;
    }
  }

  lemma VisitKeeps(env: Env, ms: seq<Mapping>, fetch: Fetch, s: State, P: State -> bool, t: State, u: string, prior: seq<Principal>)
    requires P(t) && KeptByAll(env, ms, fetch, s, P) && AllRevocable(ms, s, prior) && u in Known(ms, s)
    ensures P(Visit(env, ms, fetch, t, u, prior).0)
  {
    hide SyncAll, SyncReport, SyncUser, RevokeLost, KeptBySync, KeptByRevoke, Known, AllRevocable, Yields;
    ReportSynced(env, ms, fetch, t, u);
    var answer := SyncUser(ms, fetch, u);
    if answer.Ok? {
      SyncAllKeeps(env, ms, fetch, Known(ms, s), P, t, answer.value);
      var (t1, r) := SyncAll(env, t, answer.value);
      if r.Ok? { RevokeLostKeeps(ms, s, P, t1, prior, r.value); }
    }
  }

  /** Whatever every sync and every revocation keeps holds after any walk, finished or not. */
  lemma {:induction false} WalkKeeps(env: Env, ms: seq<Mapping>, fetch: Fetch, s: State, P: State -> bool, known: Listing, order: seq<string>)
    requires Shaped(s) && Lists(ms, s, known) && (forall u :: u in order ==> u in known)
    requires P(s) && KeptByAll(env, ms, fetch, s, P)
    ensures P(Walk(env, ms, fetch, s, known, order).0)
    decreases |order|
  {
    hide Visit, KeptByAll, AllRevocable, Shaped, Known;
    if order != [] {
      var n := |order| - 1;
      assert forall u :: u in order[..n] ==> u in order;
      WalkKeeps(env, ms, fetch, s, P, known, order[..n]);
      var (t, r) := Walk(env, ms, fetch, s, known, order[..n]);
      assert order[n] in order;
      PriorRevocable(ms, s, known, order[n]);
      if r.Ok? { VisitKeeps(env, ms, fetch, s, P, t, order[n], known[order[n]]); }
    }
  }

  /** Whatever each visit of `u` establishes and everything keeps holds after a successful walk over `u`. */
  lemma {:induction false} WalkReaches(env: Env, ms: seq<Mapping>, fetch: Fetch, s: State, P: State -> bool, known: Listing, order: seq<string>, u: string)
    requires Shaped(s) && Lists(ms, s, known) && (forall v :: v in order ==> v in known) && u in order
    requires KeptByAll(env, ms, fetch, s, P) && Walk(env, ms, fetch, s, known, order).1.Ok?
    requires forall a {:trigger Visit(env, ms, fetch, a, u, known[u])} ::
      Visit(env, ms, fetch, a, u, known[u]).1.Ok? ==> P(Visit(env, ms, fetch, a, u, known[u]).0)
    ensures P(Walk(env, ms, fetch, s, known, order).0)
    decreases |order|
  {
    hide Visit, KeptByAll, AllRevocable, Shaped, Known;
    var n := |order| - 1;
    assert forall v :: v in order[..n] ==> v in order;
    var t := Walk(env, ms, fetch, s, known, order[..n]).0;
    if u != order[n] {
      WalkReaches(env, ms, fetch, s, P, known, order[..n], u);
      assert order[n] in order;
      PriorRevocable(ms, s, known, order[n]);
      VisitKeeps(env, ms, fetch, s, P, t, order[n], known[order[n]]);
    }
  }
}
