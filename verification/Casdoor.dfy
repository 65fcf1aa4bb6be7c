/** The Casdoor directory source: how its answers become snapshots, where the roles in them come from,
    and which subjects a reconciliation asks it about. */
module Casdoor {
  import opened Text
  import opened Policies
  import opened Iam

  datatype Mapping = Mapping(organization: string, tenantID: string, tenantSlug: string, displayName: string,
                             requiredGroups: seq<string>, defaultRoles: seq<string>, roleMappings: map<string, seq<string>>)
  datatype ExternalRole = ExternalRole(owner: string, name: string, enabled: bool)
  datatype ExternalUser = ExternalUser(id: string, owner: string, name: string, email: string, displayName: string,
                                       emailVerified: bool, forbidden: bool, deleted: bool, deletedTime: string,
                                       groups: seq<string>, roles: seq<ExternalRole>)

  /** What the directory answers for an organization and a subject. */
  datatype Fetched = Failed | Missing | Found(user: ExternalUser)
  type Fetch = (string, string) -> Fetched

  // ----- configuration -----

  /** What `NewCasdoorDirectorySource` asks of one mapping. */
  ghost predicate AcceptableMapping(m: Mapping) {
    && !Blank(m.organization) && '/' !in m.organization && '\\' !in m.organization && !Blank(m.tenantID)
    && (forall role :: role in m.roleMappings ==> m.organization + "/" <= role)
    && (forall group :: group in m.requiredGroups ==> m.organization + "/" <= group)
    && (forall role :: role in m.defaultRoles ==> NormalizeRoleKey(role).Some?)
    && (forall role, grant :: role in m.roleMappings && grant in m.roleMappings[role] ==> NormalizeRoleKey(grant).Some?)
  }

  ghost predicate AcceptableMappings(ms: seq<Mapping>) {
    && (forall i :: 0 <= i < |ms| ==> AcceptableMapping(ms[i]))
    && (forall i, j :: 0 <= i < j < |ms| ==> ms[i].tenantID != ms[j].tenantID)
  }

  /** In an accepted mapping every role key and required group belongs to its organization and to no other
      that could be accepted, and every granted role is known. */
  lemma AcceptedBelongs(m: Mapping, key: string)
    requires AcceptableMapping(m) && (key in m.roleMappings || key in m.requiredGroups)
    ensures |key| > |m.organization| && key[..|m.organization|] == m.organization && key[|m.organization|] == '/'
    ensures forall org :: '/' !in org && org + "/" <= key ==> org == m.organization
    ensures TrimSpace(m.organization) != "" && TrimSpace(m.tenantID) != "" && '\\' !in m.organization
  {
    hide TrimSpace, NormalizeRoleKey;
    var n := |m.organization|;
    assert m.organization + "/" <= key;
    forall org | '/' !in org && org + "/" <= key ensures org == m.organization {
      assert key[|org|] == (org + "/")[|org|] == '/' && key[n] == (m.organization + "/")[n] == '/';
      assert forall i :: 0 <= i < |org| ==> key[i] == (org + "/")[i] == org[i];
      assert forall i :: 0 <= i < n ==> key[i] == (m.organization + "/")[i] == m.organization[i];
      assert |org| == n;
      assert org == key[..n] == m.organization;
    }
  }

  /** Which mappings are accepted, part by part. */
  lemma MappingExactly(m: Mapping)
    ensures AcceptableMapping(m) <==>
      && TrimSpace(m.organization) != "" && TrimSpace(m.tenantID) != ""
      && (forall i :: 0 <= i < |m.organization| ==> m.organization[i] != '/' && m.organization[i] != '\\')
      && (forall i :: 0 <= i < |m.defaultRoles| ==> NormalizeRoleKey(m.defaultRoles[i]).Some?)
      && (forall i :: 0 <= i < |m.requiredGroups| ==> Belongs(m.organization, m.requiredGroups[i]))
      && (forall key :: key in m.roleMappings ==> Belongs(m.organization, key) && KnownRoles(m.roleMappings[key]))
  {
    hide TrimSpace, NormalizeRoleKey;
    forall key ensures Belongs(m.organization, key) <==> m.organization + "/" <= key {
      if m.organization + "/" <= key { assert key[..|m.organization|] == (m.organization + "/")[..|m.organization|] == m.organization; }
      if Belongs(m.organization, key) { assert key[..|m.organization| + 1] == m.organization + "/"; }
    }
    assert forall i :: 0 <= i < |m.defaultRoles| ==> m.defaultRoles[i] in m.defaultRoles;
    assert forall i :: 0 <= i < |m.requiredGroups| ==> m.requiredGroups[i] in m.requiredGroups;
    assert AcceptableMapping(m) ==> forall key :: key in m.roleMappings ==> KnownRoles(m.roleMappings[key]);
  }

  predicate Belongs(organization: string, key: string) {
    |key| > |organization| && key[..|organization|] == organization && key[|organization|] == '/'
  }

  predicate KnownRoles(roles: seq<string>) {
    forall i :: 0 <= i < |roles| ==> NormalizeRoleKey(roles[i]).Some?
  }

  /** What is accepted and filled in maps distinct tenants with names, and keeps the rest of each mapping. */
  lemma AcceptedAreGood(ms: seq<Mapping>, filled: seq<Mapping>)
    requires |filled| == |ms| && forall i :: 0 <= i < |ms| ==> filled[i] == FilledMapping(ms[i])
    ensures AcceptableMappings(ms) ==> GoodMappings(filled)
    ensures AcceptableMappings(ms) <==>
      (forall i :: 0 <= i < |ms| ==> AcceptableMapping(ms[i])) && (forall i, j :: 0 <= i < |ms| && 0 <= j < |ms| && ms[i].tenantID == ms[j].tenantID ==> i == j)
  {
    hide NormalizeRoleKey, TrimSpace;
  }

  lemma FilledExactly(m: Mapping)
    ensures var f := FilledMapping(m);
      && f == m.(tenantSlug := f.tenantSlug, displayName := f.displayName)
      && (m.tenantSlug != "" ==> f.tenantSlug == m.tenantSlug) && (m.tenantSlug == "" ==> f.tenantSlug == m.tenantID)
      && (m.displayName != "" ==> f.displayName == m.displayName) && (m.displayName == "" ==> f.displayName == f.tenantSlug)
  {
  }

  lemma AcceptedRoles(m: Mapping, raw: string)
    requires AcceptableMapping(m) && (raw in m.defaultRoles || exists key :: key in m.roleMappings && raw in m.roleMappings[key])
    ensures NormalizeRoleKey(raw).Some?
  {
    hide NormalizeRoleKey, Blank;
  }

  function FilledMapping(m: Mapping): Mapping {
    var slug := if m.tenantSlug == "" then m.tenantID else m.tenantSlug;
    m.(tenantSlug := slug, displayName := if m.displayName == "" then slug else m.displayName)
  }

  /** Distinct tenants with identifiers that are not blank, as accepted mappings have. */
  ghost predicate GoodMappings(ms: seq<Mapping>) {
    && (forall i :: 0 <= i < |ms| ==> !Blank(ms[i].tenantID))
    && (forall i, j :: 0 <= i < j < |ms| ==> ms[i].tenantID != ms[j].tenantID)
  }

  // ----- one user -----

  /** `getUser`: an answer for another subject or organization counts as a failure. */
  function GetUser(fetch: Fetch, organization: string, subject: string): Result<Option<ExternalUser>, Error> {
    match fetch(organization, subject)
    case Failed => Err(DirectoryUnavailable)
    case Missing => Ok(None)
    case Found(user) => if user.id != subject || user.owner != organization then Err(DirectoryUnavailable) else Ok(Some(user))
  }

  predicate Member(m: Mapping, user: ExternalUser) {
    forall group :: group in m.requiredGroups ==> group in user.groups
  }

  function RoleGrants(m: Mapping, role: ExternalRole): seq<string> {
    var key := role.owner + "/" + role.name;
    if role.enabled && role.owner == m.organization && key in m.roleMappings then m.roleMappings[key] else []
  }

  function MappedRoles(m: Mapping, roles: seq<ExternalRole>): seq<string> {
    if roles == [] then [] else MappedRoles(m, roles[..|roles| - 1]) + RoleGrants(m, roles[|roles| - 1])
  }

  function MappedGroups(m: Mapping, groups: seq<string>): seq<Group> {
    if groups == [] then []
    else
      var prior, g := MappedGroups(m, groups[..|groups| - 1]), groups[|groups| - 1];
      var prefix := m.organization + "/";
      if prefix <= g then prior + [Group(g, g[|prefix|..], g[|prefix|..], "")] else prior
  }

  function MakeSnapshot(m: Mapping, user: ExternalUser): Snapshot {
    Snapshot(Tenant(m.tenantID, m.organization, m.tenantSlug, m.displayName, Active),
             DirectoryUser(user.id, user.name, user.email, user.displayName, user.emailVerified,
                           user.forbidden || user.deleted || user.deletedTime != ""),
             MappedGroups(m, user.groups), m.defaultRoles + MappedRoles(m, user.roles))
  }

  /** The snapshot a mapping yields for a subject: none unless the user exists and is a member. */
  function SnapshotOf(m: Mapping, fetch: Fetch, subject: string): (r: Result<Option<Snapshot>, Error>)
    ensures r.Ok? && r.value.Some? ==>
      r.value.value.user.id == subject && r.value.value.tenant.id == m.tenantID && r.value.value.tenant.status.Active?
  {
    var user := GetUser(fetch, m.organization, subject);
    if user.Err? then Err(user.error)
    else if user.value.None? || !Member(m, user.value.value) then Ok(None)
    else Ok(Some(MakeSnapshot(m, user.value.value)))
  }

  function Collect(ms: seq<Mapping>, fetch: Fetch, subject: string): Result<seq<Snapshot>, Error>
    decreases |ms|
  {
    if ms == [] then Ok([])
    else
      var first := SnapshotOf(ms[0], fetch, subject);
      if first.Err? then Err(first.error)
      else
        var rest := Collect(ms[1..], fetch, subject);
        if rest.Err? then rest
        else if first.value.None? then rest
        else Ok([first.value.value] + rest.value)
  }

  function SyncUser(ms: seq<Mapping>, fetch: Fetch, subject: string): Result<seq<Snapshot>, Error> {
    if Blank(subject) then Err(InvalidInput) else Collect(ms, fetch, subject)
  }

  /** The snapshot of the mapping with the given index, if there is one. */
  function SnapAt(ms: seq<Mapping>, fetch: Fetch, i: nat, subject: string): Option<Snapshot>
    requires i < |ms|
  {
    var r := SnapshotOf(ms[i], fetch, subject);
    if r.Ok? then r.value else None
  }

  ghost predicate Yields(ms: seq<Mapping>, fetch: Fetch, subject: string, snap: Snapshot) {
    exists i :: 0 <= i < |ms| && SnapAt(ms, fetch, i, subject) == Some(snap)
  }

  lemma {:induction false} CollectYields(ms: seq<Mapping>, fetch: Fetch, subject: string, snap: Snapshot)
    requires Collect(ms, fetch, subject).Ok?
    ensures snap in Collect(ms, fetch, subject).value <==> Yields(ms, fetch, subject, snap)
    decreases |ms|
  {
    hide SnapshotOf;
    if ms != [] {
      CollectYields(ms[1..], fetch, subject, snap);
      if Yields(ms[1..], fetch, subject, snap) {
        var i :| 0 <= i < |ms[1..]| && SnapAt(ms[1..], fetch, i, subject) == Some(snap);
        assert SnapAt(ms, fetch, i + 1, subject) == Some(snap);
      }
      if Yields(ms, fetch, subject, snap) {
        var i :| 0 <= i < |ms| && SnapAt(ms, fetch, i, subject) == Some(snap);
        if i > 0 { assert SnapAt(ms[1..], fetch, i - 1, subject) == Some(snap); }
      } else {
        assert SnapAt(ms, fetch, 0, subject) != Some(snap);
      }
    }
  }

  lemma {:induction false} CollectDistinct(ms: seq<Mapping>, fetch: Fetch, subject: string)
    requires Collect(ms, fetch, subject).Ok?
    requires forall i, j :: 0 <= i < j < |ms| ==> ms[i].tenantID != ms[j].tenantID
    ensures var snaps := Collect(ms, fetch, subject).value;
      forall i, j :: 0 <= i < j < |snaps| ==> snaps[i].tenant.id != snaps[j].tenant.id
    decreases |ms|
  {
    if ms != [] {
      CollectDistinct(ms[1..], fetch, subject);
      var rest := Collect(ms[1..], fetch, subject).value;
      forall j | 0 <= j < |rest| ensures rest[j].tenant.id != ms[0].tenantID {
        CollectYields(ms[1..], fetch, subject, rest[j]);
        var i :| 0 <= i < |ms[1..]| && SnapAt(ms[1..], fetch, i, subject) == Some(rest[j]);
        assert ms[1..][i] == ms[i + 1];
      }
    }
  }

  lemma YieldFacts(ms: seq<Mapping>, fetch: Fetch, subject: string, snap: Snapshot)
    requires Yields(ms, fetch, subject, snap)
    ensures snap.user.id == subject && Managed(ms, snap.tenant.id) && snap.tenant.status.Active?
    ensures GoodMappings(ms) ==> !Blank(snap.tenant.id)
  {
    hide SnapshotOf, Blank;
    var i :| 0 <= i < |ms| && SnapAt(ms, fetch, i, subject) == Some(snap);
    assert ms[i] in ms;
  }

  // ----- what is reported, from what the directory answers -----

  /** The directory has an answer: nobody, or the subject itself, in the organization asked. */
  predicate Answers(fetch: Fetch, organization: string, subject: string) {
    match fetch(organization, subject)
    case Failed => false
    case Missing => true
    case Found(user) => user.id == subject && user.owner == organization
  }

  predicate InEveryGroup(groups: seq<string>, user: ExternalUser) {
    forall i :: 0 <= i < |groups| ==> groups[i] in user.groups
  }

  /** A subject's sync reports to a mapped tenant exactly if the directory finds the subject in the
      mapping's organization with every group that the mapping requires. */
  lemma ReportedExactly(ms: seq<Mapping>, fetch: Fetch, subject: string, m: Mapping)
    requires GoodMappings(ms) && m in ms && SyncUser(ms, fetch, subject).Ok?
    ensures (exists snap :: snap in SyncUser(ms, fetch, subject).value && snap.tenant.id == m.tenantID) <==>
      fetch(m.organization, subject).Found? && InEveryGroup(m.requiredGroups, fetch(m.organization, subject).user)
    ensures forall snap :: snap in SyncUser(ms, fetch, subject).value && snap.tenant.id == m.tenantID ==>
      snap == MakeSnapshot(m, fetch(m.organization, subject).user)
  {
    hide Blank, Collect, MakeSnapshot;
    var j :| 0 <= j < |ms| && ms[j] == m;
    var snaps := SyncUser(ms, fetch, subject).value;
    forall snap | snap in snaps && snap.tenant.id == m.tenantID ensures SnapAt(ms, fetch, j, subject) == Some(snap) {
      CollectYields(ms, fetch, subject, snap);
      var i :| 0 <= i < |ms| && SnapAt(ms, fetch, i, subject) == Some(snap);
      assert ms[i].tenantID == ms[j].tenantID;
    }
    SyncedAnswers(ms, fetch, subject, j);
    if fetch(m.organization, subject).Found? && InEveryGroup(m.requiredGroups, fetch(m.organization, subject).user) {
      var snap := MakeSnapshot(m, fetch(m.organization, subject).user);
      assert SnapAt(ms, fetch, j, subject) == Some(snap);
      CollectYields(ms, fetch, subject, snap);
      assert snap.tenant.id == m.tenantID by { SnapshotContent(m, fetch(m.organization, subject).user); }
    }
  }

  lemma SyncedAnswers(ms: seq<Mapping>, fetch: Fetch, subject: string, j: nat)
    requires j < |ms| && SyncUser(ms, fetch, subject).Ok?
    ensures Answers(fetch, ms[j].organization, subject)
  {
    hide Blank, Collect;
    SyncUserExactly(ms, fetch, subject);
  }

  /** A subject's sync can be answered exactly if the directory answers for every organization. */
  lemma SyncUserExactly(ms: seq<Mapping>, fetch: Fetch, subject: string)
    ensures SyncUser(ms, fetch, subject).Ok? <==> TrimSpace(subject) != "" && forall i :: 0 <= i < |ms| ==> Answers(fetch, ms[i].organization, subject)
    ensures SyncUser(ms, fetch, subject).Err? ==> SyncUser(ms, fetch, subject) == Err(if TrimSpace(subject) == "" then InvalidInput else DirectoryUnavailable)
  {
    hide TrimSpace, Answers;
    CollectExactly(ms, fetch, subject);
  }

  lemma {:induction false} CollectExactly(ms: seq<Mapping>, fetch: Fetch, subject: string)
    ensures Collect(ms, fetch, subject).Ok? <==> forall i :: 0 <= i < |ms| ==> Answers(fetch, ms[i].organization, subject)
    ensures Collect(ms, fetch, subject).Err? ==> Collect(ms, fetch, subject) == Err(DirectoryUnavailable)
    decreases |ms|
  {
    hide Member, MakeSnapshot;
    if ms != [] {
      CollectExactly(ms[1..], fetch, subject);
      assert ms == [ms[0]] + ms[1..];
    }
  }

  /** The snapshot field by field: the tenant as mapped; the user as found, disabled if forbidden or
      deleted; the default roles and the mapped ones of enabled roles in the organization; and the
      organization's groups under their own names. */
  lemma SnapshotContent(m: Mapping, user: ExternalUser)
    ensures var snap := MakeSnapshot(m, user);
      && snap.tenant.id == m.tenantID && snap.tenant.orgName == m.organization && snap.tenant.slug == m.tenantSlug
      && snap.tenant.displayName == m.displayName && snap.tenant.status == Active
      && snap.user.id == user.id && snap.user.username == user.name && snap.user.email == user.email && snap.user.displayName == user.displayName
      && snap.user.emailVerified == user.emailVerified
      && (snap.user.disabled <==> user.forbidden || user.deleted || user.deletedTime != "")
  {
  }

  lemma {:induction false} RolesReported(m: Mapping, roles: seq<ExternalRole>, raw: string)
    ensures raw in MappedRoles(m, roles) <==>
      exists i :: 0 <= i < |roles| && roles[i].enabled && roles[i].owner == m.organization && MapsTo(m, roles[i], raw)
  {
    if roles != [] {
      var n := |roles| - 1;
      RolesReported(m, roles[..n], raw);
      assert roles == roles[..n] + [roles[n]];
      assert MappedRoles(m, roles) == MappedRoles(m, roles[..n]) + RoleGrants(m, roles[n]);
      assert raw in RoleGrants(m, roles[n]) <==> roles[n].enabled && roles[n].owner == m.organization && MapsTo(m, roles[n], raw);
    }
  }

  predicate MapsTo(m: Mapping, role: ExternalRole, raw: string) {
    role.owner + "/" + role.name in m.roleMappings && raw in m.roleMappings[role.owner + "/" + role.name]
  }

  lemma {:induction false} GroupsReported(m: Mapping, groups: seq<string>, g: Group)
    ensures g in MappedGroups(m, groups) <==>
      g.parentGroupID == "" && g.name == g.displayName && g.id == m.organization + "/" + g.name && g.id in groups
  {
    if groups != [] {
      var n := |groups| - 1;
      GroupsReported(m, groups[..n], g);
      assert groups == groups[..n] + [groups[n]];
      var prefix := m.organization + "/";
      if prefix <= groups[n] { assert groups[n] == prefix + groups[n][|prefix|..]; }
      assert g.id == prefix + g.name ==> prefix <= g.id && g.id[|prefix|..] == g.name;
    }
  }

  // ----- where projected roles come from -----

  lemma {:induction false} DistinctRolesOrigin(roles: seq<string>, grant: RoleGrant)
    requires grant in DistinctRoles(roles)
    ensures exists raw :: raw in roles && NormalizeRoleKey(raw) == Some(grant.key)
  {
    hide NormalizeRoleKey;
    var n := |roles| - 1;
    if grant in DistinctRoles(roles[..n]) {
      DistinctRolesOrigin(roles[..n], grant);
      var raw :| raw in roles[..n] && NormalizeRoleKey(raw) == Some(grant.key);
      assert raw in roles;
    } else {
      assert roles[n] in roles;
    }
  }

  lemma {:induction false} MappedRolesOrigin(m: Mapping, roles: seq<ExternalRole>, raw: string)
    requires raw in MappedRoles(m, roles)
    ensures exists role :: role in roles && role.enabled && role.owner == m.organization && raw in RoleGrants(m, role)
  {
    var n := |roles| - 1;
    if raw in MappedRoles(m, roles[..n]) {
      MappedRolesOrigin(m, roles[..n], raw);
      var role :| role in roles[..n] && role.enabled && role.owner == m.organization && raw in RoleGrants(m, role);
      assert role in roles;
    } else {
      assert roles[n] in roles && raw in RoleGrants(m, roles[n]);
    }
  }

  /** Every projected role is the fallback, a default role of the mapping, or mapped from an enabled
      role of the mapping's own organization. */
  ghost predicate RoleJustified(m: Mapping, user: ExternalUser, grant: RoleGrant) {
    || grant == RoleGrant(ROLE_FRONTEND_USER, "", "")
    || (exists raw :: raw in m.defaultRoles && NormalizeRoleKey(raw) == Some(grant.key))
    || (exists raw, role :: role in user.roles && role.enabled && role.owner == m.organization
                            && raw in RoleGrants(m, role) && NormalizeRoleKey(raw) == Some(grant.key))
  }

  lemma ProjectedRolesJustified(env: Env, principals: map<string, Principal>, registration: Registration, m: Mapping, user: ExternalUser, grant: RoleGrant)
    requires grant in Projected(env, principals, registration, MakeSnapshot(m, user)).roles
    ensures RoleJustified(m, user, grant)
  {
    hide NormalizeRoleKey;
    var roles := m.defaultRoles + MappedRoles(m, user.roles);
    if grant in DistinctRoles(roles) {
      DistinctRolesOrigin(roles, grant);
      var raw :| raw in roles && NormalizeRoleKey(raw) == Some(grant.key);
      if raw !in m.defaultRoles {
        MappedRolesOrigin(m, user.roles, raw);
        var role :| role in user.roles && role.enabled && role.owner == m.organization && raw in RoleGrants(m, role);
      }
    }
  }

  // ----- reconciliation: known subjects -----

  predicate Managed(ms: seq<Mapping>, tenantID: string) {
    exists m :: m in ms && m.tenantID == tenantID
  }

  predicate IsSubject(ms: seq<Mapping>, p: Principal) {
    Managed(ms, p.tenantID) && p.externalID != "" && p.kind.User?
  }

  /** The subjects a reconciliation refreshes: external users already projected to a mapped tenant. */
  function Known(ms: seq<Mapping>, s: State): set<string> {
    set id | id in s.principals && IsSubject(ms, s.principals[id]) :: s.principals[id].externalID
  }

  /** Which tenants are mapped, and which subjects are known: those of users stored in one. */
  lemma KnownExactly(ms: seq<Mapping>, s: State, u: string)
    ensures forall t :: Managed(ms, t) <==> exists i :: 0 <= i < |ms| && ms[i].tenantID == t
    ensures u in Known(ms, s) <==>
      u != "" && exists id, i :: 0 <= i < |ms| && id in s.principals && s.principals[id].tenantID == ms[i].tenantID && OfUser(s.principals[id], u)
  {
    forall t ensures Managed(ms, t) <==> exists i :: 0 <= i < |ms| && ms[i].tenantID == t {
      if i :| 0 <= i < |ms| && ms[i].tenantID == t { assert ms[i] in ms; }
    }
  }

  predicate OfUser(p: Principal, u: string) {
    p.kind == User && p.externalID == u
  }

  /** Nothing stands in the way: every known subject can be fetched, and no reported tenant would
      change its organization. */
  ghost predicate Reconcilable(ms: seq<Mapping>, fetch: Fetch, s: State) {
    forall u :: u in Known(ms, s) ==> SubjectReady(ms, fetch, s, u)
  }

  ghost predicate SubjectReady(ms: seq<Mapping>, fetch: Fetch, s: State, u: string) {
    SyncUser(ms, fetch, u).Ok? && forall snap :: snap in SyncUser(ms, fetch, u).value ==> OrgAllowed(s.tenants, snap.tenant)
  }

  function PID(env: Env, snap: Snapshot): string {
    PrincipalID(env, snap.tenant.id, snap.user.id)
  }

  /** A snapshot that the directory yields for some subject in `K`. */
  ghost predicate FromDirectory(ms: seq<Mapping>, fetch: Fetch, K: set<string>, snap: Snapshot) {
    snap.user.id in K && Yields(ms, fetch, snap.user.id, snap)
  }

  ghost predicate Reported(env: Env, ms: seq<Mapping>, fetch: Fetch, K: set<string>, id: string, snap: Snapshot) {
    FromDirectory(ms, fetch, K, snap) && PID(env, snap) == id
  }
}
