/** The Casdoor directory source as an object: its configuration checks, its per-organization cache
    and the nested loops of a reconciliation, proved to be walks and to keep their promises. */
module CasdoorSources {
  import opened Text
  import opened Policies
  import opened Iam
  import opened Identity
  import opened Casdoor
  import opened Walks
  import opened Outcomes
  import opened Reconcile
  import opened MemoryStores
  import opened Services

  datatype ConfigError = BadMapping | UnknownRole(role: string)

  method AllKnownRoles(roles: seq<string>) returns (unknown: Option<string>)
    ensures unknown.None? <==> forall role :: role in roles ==> NormalizeRoleKey(role).Some?
    ensures unknown.Some? ==> unknown.value in roles && NormalizeRoleKey(unknown.value).None?
  {
    hide NormalizeRoleKey;
    for i := 0 to |roles|
      invariant forall j :: 0 <= j < i ==> NormalizeRoleKey(roles[j]).Some?
    {
      var key := NormalizeRoleKey(roles[i]);
      if key.None? { return Some(roles[i]); }
    }
    unknown := None;
  }

  method AllPrefixed(names: seq<string>, prefix: string) returns (ok: bool)
    ensures ok <==> forall name :: name in names ==> prefix <= name
  {
    for i := 0 to |names|
      invariant forall j :: 0 <= j < i ==> prefix <= names[j]
    {
      if !(prefix <= names[i]) { assert names[i] in names; return false; }
    }
    ok := true;
  }

  /** The role table of a mapping, walked in any order: every key in the organization. */
  method RoleKeysPrefixed(m: Mapping) returns (ok: bool)
    ensures ok <==> forall role :: role in m.roleMappings ==> m.organization + "/" <= role
  {
    var todo := m.roleMappings.Keys;
    while todo != {}
      invariant forall role :: role in m.roleMappings && role !in todo ==> m.organization + "/" <= role
      invariant todo <= m.roleMappings.Keys
      decreases todo
    {
      var role :| role in todo;
      todo := todo - {role};
      if !(m.organization + "/" <= role) { return false; }
    }
    ok := true;
  }

  ghost predicate KnownGrants(m: Mapping, role: string)
    requires role in m.roleMappings
  {
    forall grant :: grant in m.roleMappings[role] ==> NormalizeRoleKey(grant).Some?
  }

  method GrantsKnown(m: Mapping) returns (unknown: Option<string>)
    ensures unknown.None? <==> forall role :: role in m.roleMappings ==> KnownGrants(m, role)
    ensures unknown.Some? ==> NormalizeRoleKey(unknown.value).None? && exists role :: role in m.roleMappings && unknown.value in m.roleMappings[role]
  {
    hide NormalizeRoleKey;
    var todo := m.roleMappings.Keys;
    while todo != {}
      invariant forall role :: role in m.roleMappings && role !in todo ==> KnownGrants(m, role)
      invariant todo <= m.roleMappings.Keys
      decreases todo
    {
      var role :| role in todo;
      todo := todo - {role};
      unknown := AllKnownRoles(m.roleMappings[role]);
      if unknown.Some? { assert !KnownGrants(m, role); return; }
    }
    unknown := None;
  }

  method CheckMapping(m: Mapping) returns (r: Result<Mapping, ConfigError>)
    ensures r.Ok? <==> AcceptableMapping(m)
    ensures r.Ok? ==> r.value == FilledMapping(m)
    ensures r.Err? && r.error.UnknownRole? ==> NormalizeRoleKey(r.error.role).None?
  {
    hide NormalizeRoleKey, TrimSpace;
    if Blank(m.organization) || '/' in m.organization || '\\' in m.organization || Blank(m.tenantID) { return Err(BadMapping); }
    var filled := m;
    if filled.tenantSlug == "" { filled := filled.(tenantSlug := filled.tenantID); }
    if filled.displayName == "" { filled := filled.(displayName := filled.tenantSlug); }
    var ok := RoleKeysPrefixed(m);
    if !ok { return Err(BadMapping); }
    ok := AllPrefixed(m.requiredGroups, m.organization + "/");
    if !ok { return Err(BadMapping); }
    var unknown := AllKnownRoles(m.defaultRoles);
    if unknown.Some? { return Err(UnknownRole(unknown.value)); }
    unknown := GrantsKnown(m);
    if unknown.Some? { return Err(UnknownRole(unknown.value)); }
    assert forall role, grant :: role in m.roleMappings && grant in m.roleMappings[role] ==> KnownGrants(m, role) && NormalizeRoleKey(grant).Some?;
    r := Ok(filled);
  }

  /** The mapping checks of `NewCasdoorDirectorySource`. */
  method CheckMappings(ms: seq<Mapping>) returns (r: Result<seq<Mapping>, ConfigError>)
    ensures r.Ok? <==> ms != [] && AcceptableMappings(ms)
    ensures r.Ok? ==> |r.value| == |ms| && forall i :: 0 <= i < |ms| ==> r.value[i] == FilledMapping(ms[i])
    ensures r.Err? && r.error.UnknownRole? ==> NormalizeRoleKey(r.error.role).None?
  {
    hide AcceptableMapping, NormalizeRoleKey, FilledMapping;
    if ms == [] { return Err(BadMapping); }
    var seen: set<string> := {};
    var filled: seq<Mapping> := [];
    for i := 0 to |ms|
      invariant |filled| == i && forall j :: 0 <= j < i ==> filled[j] == FilledMapping(ms[j])
      invariant seen == set j | 0 <= j < i :: ms[j].tenantID
      invariant forall j :: 0 <= j < i ==> AcceptableMapping(ms[j])
      invariant forall j, k :: 0 <= j < k < i ==> ms[j].tenantID != ms[k].tenantID
    {
      if ms[i].tenantID in seen { return Err(BadMapping); }
      seen := seen + {ms[i].tenantID};
      var one := CheckMapping(ms[i]);
      if one.Err? { return Err(one.error); }
      filled := filled + [one.value];
    }
    r := Ok(filled);
  }

  // ----- snapshots -----

  method IsMember(m: Mapping, user: ExternalUser) returns (member: bool)
    ensures member == Member(m, user)
  {
    member := true;
    for i := 0 to |m.requiredGroups|
      invariant member <==> forall j :: 0 <= j < i ==> m.requiredGroups[j] in user.groups
    {
      member := member && m.requiredGroups[i] in user.groups;
    }
  }

  method EvalSnapshot(m: Mapping, user: ExternalUser) returns (snap: Snapshot)
    ensures snap == MakeSnapshot(m, user)
  {
    var roles := m.defaultRoles;
    for i := 0 to |user.roles|
      invariant roles == m.defaultRoles + MappedRoles(m, user.roles[..i])
    {
      assert user.roles[..i + 1][..i] == user.roles[..i];
      var role := user.roles[i];
      var key := role.owner + "/" + role.name;
      if role.enabled && role.owner == m.organization && key in m.roleMappings { roles := roles + m.roleMappings[key]; }
    }
    assert user.roles[..|user.roles|] == user.roles;
    var groups: seq<Group> := [];
    var prefix := m.organization + "/";
    for i := 0 to |user.groups|
      invariant groups == MappedGroups(m, user.groups[..i])
    {
      assert user.groups[..i + 1][..i] == user.groups[..i];
      var g := user.groups[i];
      if prefix <= g { groups := groups + [Group(g, g[|prefix|..], g[|prefix|..], "")]; }
    }
    assert user.groups[..|user.groups|] == user.groups;
    snap := Snapshot(Tenant(m.tenantID, m.organization, m.tenantSlug, m.displayName, Active),
                     DirectoryUser(user.id, user.name, user.email, user.displayName, user.emailVerified,
                                   user.forbidden || user.deleted || user.deletedTime != ""),
                     groups, roles);
  }

  function Prepend(done: seq<Snapshot>, rest: Result<seq<Snapshot>, Error>): Result<seq<Snapshot>, Error> {
    if rest.Err? then rest else Ok(done + rest.value)
  }

  lemma KnownIgnoresPolicy(ms: seq<Mapping>, s: State, t: State, known: Listing)
    requires s.principals == t.principals && Lists(ms, s, known)
    ensures Lists(ms, t, known)
  {
  }

  /** After a failure nothing more is revoked. */
  lemma {:induction false} RevokeLostStops(ms: seq<Mapping>, t: State, prior: seq<Principal>, current: seq<Principal>, j: nat)
    requires j <= |prior| && RevokeLost(ms, t, prior[..j], current).1.Err?
    ensures RevokeLost(ms, t, prior, current) == RevokeLost(ms, t, prior[..j], current)
    decreases |prior|
  {
    hide RevokeDirectoryPrincipal, Managed, Present;
    if j < |prior| {
      var n := |prior| - 1;
      assert prior[..n][..j] == prior[..j];
      RevokeLostStops(ms, t, prior[..n], current, j);
    } else {
      assert prior[..j] == prior;
    }
  }

  predicate Named(ms: seq<Mapping>) {
    forall m :: m in ms ==> m.tenantID != ""
  }

  /** What a reconciliation from `s` to `t` promises, of any identifiers: finished or not, it keeps the
      store's shape and standing, statuses only decline, and bound sessions stay bound among separate
      pairs; it succeeds exactly when nothing stands in its way; and then every covered record is
      settled, and every other changes exactly if its identifier is reported. */
  ghost predicate Promised(env: Env, ms: seq<Mapping>, fetch: Fetch, s: State, t: State, ok: bool) {
    && (forall ids :: Kept(env, ids, ReportsAmong(ids, ms, Known(ms, s)), s, t))
    && (GoodMappings(ms) ==> (ok <==> Reconcilable(ms, fetch, s)))
    && (ok ==>
          && (forall id :: id in t.principals && Covered(ms, s, t.principals[id]) ==> Settled(env, ms, fetch, Known(ms, s), t, id))
          && (forall id :: id in s.principals && Covered(ms, s, s.principals[id]) ==> Settled(env, ms, fetch, Known(ms, s), t, id))
          && (forall id :: id in s.principals && !Covered(ms, s, s.principals[id]) ==>
                (Alone(s, t, id) <==> !exists snap :: Reported(env, ms, fetch, Known(ms, s), id, snap))))
  }

  lemma WalkPromises(env: Env, ms: seq<Mapping>, fetch: Fetch, s: State, known: Listing, order: seq<string>)
    requires Shaped(s) && WalkOf(ms, s, known, order) && (Walk(env, ms, fetch, s, known, order).1.Ok? ==> Enumerates(order, known.Keys))
    ensures var (t, r) := Walk(env, ms, fetch, s, known, order); Promised(env, ms, fetch, s, t, r.Ok?)
  {
    hide Shaped, Walk, Known, Kept, Settled, Alone, Reported, ReportsAmong, GoodMappings, SubjectReady, Managed, Taken;
    var (t, r) := Walk(env, ms, fetch, s, known, order);
    forall ids { WalkKept(env, ids, ms, fetch, s, known, order); }
    if GoodMappings(ms) {
      WalkSucceeds(env, ms, fetch, s, known, order);
      ListedKeys(ms, s, known);
    }
    if r.Ok? {
      assert Finished(env, ms, fetch, s, known, order, t);
      forall id | id in t.principals && Covered(ms, s, t.principals[id]) { AllSettle(env, ms, fetch, s, known, order, t, id); }
      forall id | id in s.principals && Covered(ms, s, s.principals[id]) { CoveredSettles(env, ms, fetch, s, known, order, t, id); }
      forall id | id in s.principals && !Covered(ms, s, s.principals[id]) { OutsideExactly(env, ms, fetch, s, known, order, t, id); }
    }
  }

  lemma NothingPromised(env: Env, ms: seq<Mapping>, fetch: Fetch, s: State)
    requires Shaped(s) && !Named(ms)
    ensures Promised(env, ms, fetch, s, s, false)
  {
    hide Shaped, Known, Kept, ReportsAmong, Reconcilable;
    forall ids { KeptSame(env, ids, ReportsAmong(ids, ms, Known(ms, s)), s); }
  }

  class CasdoorDirectorySource {
    const mappings: seq<Mapping>
    var service: Service?

    constructor (mappings: seq<Mapping>)
      ensures this.mappings == mappings && service == null
    {
      this.mappings, service := mappings, null;
    }

    /** A source serves one service only. */
    method Bind(service: Service) returns (ok: bool)
      modifies `service
      ensures ok <==> old(this.service) == null || old(this.service) == service
      ensures this.service == if ok then service else old(this.service)
    {
      if this.service != null && this.service != service { return false; }
      this.service := service;
      ok := true;
    }

    /** `SyncUser`: one fetch per organization, remembered in `users`. */
    method SyncUser(fetch: Fetch, subject: string) returns (r: Result<seq<Snapshot>, Error>)
      ensures r == Casdoor.SyncUser(mappings, fetch, subject)
    {
      hide MakeSnapshot, GetUser, Member, TrimSpace;
      if Blank(subject) { return Err(InvalidInput); }
      var users: map<string, Option<ExternalUser>> := map[];
      var snapshots: seq<Snapshot> := [];
      assert mappings[0..] == mappings && forall rest: seq<Snapshot> :: [] + rest == rest;
      for i := 0 to |mappings|
        invariant forall org :: org in users ==> GetUser(fetch, org, subject) == Ok(users[org])
        invariant Collect(mappings, fetch, subject) == Prepend(snapshots, Collect(mappings[i..], fetch, subject))
      {
        assert mappings[i..][0] == mappings[i] && mappings[i..][1..] == mappings[i + 1..];
        var m := mappings[i];
        if m.organization !in users {
          var answer := GetUser(fetch, m.organization, subject);
          if answer.Err? { return Err(answer.error); }
          users := users[m.organization := answer.value];
        }
        var user := users[m.organization];
        if user.Some? {
          var member := IsMember(m, user.value);
          if member {
            var snap := EvalSnapshot(m, user.value);
            assert forall rest: seq<Snapshot> :: snapshots + ([snap] + rest) == (snapshots + [snap]) + rest;
            snapshots := snapshots + [snap];
          }
        }
      }
      assert mappings[|mappings|..] == [] && snapshots + [] == snapshots;
      r := Ok(snapshots);
    }

    method IsManaged(tenantID: string) returns (managed: bool)
      ensures managed == Managed(mappings, tenantID)
    {
      managed := false;
      for i := 0 to |mappings|
        invariant managed <==> exists j :: 0 <= j < i && mappings[j].tenantID == tenantID
      {
        managed := managed || mappings[i].tenantID == tenantID;
      }
    }

    method IsPresent(current: seq<Principal>, id: string) returns (present: bool)
      ensures present == Present(current, id)
    {
      for i := 0 to |current|
        invariant forall j :: 0 <= j < i ==> current[j].id != id
      {
        if current[i].id == id { assert current[i] in current; return true; }
      }
      present := false;
    }

    /** Looks up the records of the listed subjects that were not looked up before. */
    method AddKnown(store: MemoryStore, known: map<string, seq<Principal>>, subjects: seq<string>) returns (r: map<string, seq<Principal>>)
      requires forall u :: u in known ==> ListsAll(store.principals, u, known[u])
      ensures r.Keys == known.Keys + Elements(subjects)
      ensures forall u :: u in r ==> ListsAll(store.principals, u, r[u])
    {
      hide ListsAll;
      r := known;
      for j := 0 to |subjects|
        invariant r.Keys == known.Keys + Elements(subjects[..j])
        invariant forall u :: u in r ==> ListsAll(store.principals, u, r[u])
      {
        assert subjects[..j + 1] == subjects[..j] + [subjects[j]];
        if subjects[j] !in r {
          var principals := store.ListPrincipalsByCasdoorUser(subjects[j]);
          assert ListsAll(store.principals, subjects[j], principals) by { IsListing(store.principals, subjects[j], principals); }
          r := r[subjects[j] := principals];
        }
      }
      assert subjects[..|subjects|] == subjects;
    }

    static lemma IsListing(principals: map<string, Principal>, u: string, ps: seq<Principal>)
      requires forall p :: p in ps <==> exists id :: id in principals && principals[id] == p && p.externalID != "" && p.externalID == u
      ensures ListsAll(principals, u, ps)
    {
    }

    /** Every subject already projected to a mapped tenant, with the records stored for it. */
    method ListKnown(store: MemoryStore) returns (r: Result<map<string, seq<Principal>>, Error>)
      ensures r.Ok? <==> Named(mappings)
      ensures r.Ok? ==> Lists(mappings, store.State(Policy(map[]), Open), r.value)
    {
      ghost var s := store.State(Policy(map[]), Open);
      var known: map<string, seq<Principal>> := map[];
      NoneKnown(s);
      assert mappings[..0] == [];
      for i := 0 to |mappings|
        invariant known.Keys == Known(mappings[..i], s)
        invariant forall u :: u in known ==> ListsAll(store.principals, u, known[u])
        invariant Named(mappings[..i])
      {
        assert mappings[..i + 1] == mappings[..i] + [mappings[i]];
        var listed := store.ListDirectorySubjects(mappings[i].tenantID);
        if listed.Err? { assert mappings[i] in mappings; return Err(listed.error); }
        KnownMore(mappings, i, s);
        known := AddKnown(store, known, listed.value);
      }
      assert mappings[..|mappings|] == mappings;
      r := Ok(known);
    }

    static lemma NoneKnown(s: State)
      ensures Known([], s) == {}
    {
    }

    static ghost function SubjectsIn(s: State, tenantID: string): set<string> {
      set id | id in s.principals && s.principals[id].tenantID == tenantID && s.principals[id].externalID != "" && s.principals[id].kind.User?
        :: s.principals[id].externalID
    }

    static lemma KnownMore(ms: seq<Mapping>, i: nat, s: State)
      requires i < |ms|
      ensures Known(ms[..i + 1], s) == Known(ms[..i], s) + SubjectsIn(s, ms[i].tenantID)
    {
      forall id | id in s.principals
        ensures Managed(ms[..i + 1], s.principals[id].tenantID) <==> Managed(ms[..i], s.principals[id].tenantID) || s.principals[id].tenantID == ms[i].tenantID
      {
        ManagedMore(ms, i, s.principals[id].tenantID);
      }
    }

    static lemma ManagedMore(ms: seq<Mapping>, i: nat, t: string)
      requires i < |ms|
      ensures Managed(ms[..i + 1], t) <==> Managed(ms[..i], t) || t == ms[i].tenantID
    {
      assert ms[..i + 1] == ms[..i] + [ms[i]];
      assert ms[i] in ms[..i + 1];
      if Managed(ms[..i], t) { var m :| m in ms[..i] && m.tenantID == t; assert m in ms[..i + 1]; }
    }

    /** Revokes the prior records in mapped tenants that the directory no longer reports. */
    method RevokeLost(service: Service, prior: seq<Principal>, current: seq<Principal>) returns (r: Result<(), Error>)
      modifies service.store
      ensures (service.View(), r) == Walks.RevokeLost(mappings, old(service.View()), prior, current)
    {
      hide Iam.RevokeDirectoryPrincipal, Managed, Service.View;
      for j := 0 to |prior|
        invariant Walks.RevokeLost(mappings, old(service.View()), prior[..j], current) == (service.View(), Ok(()))
      {
        assert prior[..j + 1][..j] == prior[..j];
        var p := prior[j];
        var managed := IsManaged(p.tenantID);
        var present := IsPresent(current, p.id);
        if managed && !present {
          var e := service.RevokeDirectoryPrincipal(p);
          if !e.Unauthorized? {
            RevokeLostStops(mappings, old(service.View()), prior, current, j + 1);
            return Err(e);
          }
        }
      }
      assert prior[..|prior|] == prior;
      r := Ok(());
    }

    /** The loop of `Reconcile` over the known subjects, in any order, up to the first failure. */
    method VisitAll(service: Service, fetch: Fetch, known: Listing) returns (r: Result<(), Error>, ghost order: seq<string>)
      modifies service.store
      ensures (forall u :: u in order ==> u in known) && (r.Ok? ==> Enumerates(order, known.Keys))
      ensures Walk(service.env, mappings, fetch, old(service.View()), known, order) == (service.View(), r)
    {
      hide Walks.RevokeLost, Service.View, Casdoor.SyncUser, SyncReport;
      order := [];
      var todo := known.Keys;
      while todo != {}
        invariant todo <= known.Keys && Enumerates(order, known.Keys - todo)
        invariant Walk(service.env, mappings, fetch, old(service.View()), known, order) == (service.View(), Ok(()))
        decreases todo
      {
        var u :| u in todo;
        assert (order + [u])[..|order|] == order;
        order, todo := order + [u], todo - {u};
        var reported := SyncUser(fetch, u);
        var current := service.SyncReported(reported, u);
        if current.Err? { return Err(current.error), order; }
        r := RevokeLost(service, known[u], current.value);
        if r.Err? { return; }
        assert r.value == ();
      }
      r := Ok(());
    }

    /** `Reconcile`: the walk it took, and what follows for any store in good shape, whatever the
        identifiers, the directory and the order. */
    method Reconcile(fetch: Fetch) returns (r: Result<(), Error>, ghost known: Listing, ghost order: seq<string>)
      modifies if service == null then {} else {service.store}
      ensures service == null ==> r == Err(InvalidInput)
      ensures service != null && !Named(mappings) ==> r.Err? && service.View() == old(service.View())
      ensures service != null && Named(mappings) ==>
        && WalkOf(mappings, old(service.View()), known, order)
        && Walk(service.env, mappings, fetch, old(service.View()), known, order) == (service.View(), r)
        && (r.Ok? ==> Complete(service.env, mappings, fetch, old(service.View()), known, order, service.View()))
      ensures service != null && Shaped(old(service.View())) ==>
        Promised(service.env, mappings, fetch, old(service.View()), service.View(), r.Ok?)
    {
      hide Walk, Promised, Known, Shaped, ListsAll;
      known, order := map[], [];
      if service == null { return Err(InvalidInput), known, order; }
      ghost var env, s := service.env, service.View();
      var listed := ListKnown(service.store);
      if listed.Err? {
        if Shaped(s) { NothingPromised(env, mappings, fetch, s); }
        return Err(listed.error), known, order;
      }
      known := listed.value;
      KnownIgnoresPolicy(mappings, service.store.State(Policy(map[]), Open), s, known);
      r, order := VisitAll(service, fetch, listed.value);
      if Shaped(s) { WalkPromises(env, mappings, fetch, s, known, order); }
    }
  }
}
