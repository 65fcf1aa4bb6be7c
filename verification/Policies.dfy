/** Role policy evaluation: the set of scopes that role grants carry, its intersection with the
    scopes a set of actions asks for, and the confinement of those scopes to one audience. */
module Policies {
  import opened Text

  const ROLE_PLATFORM_OWNER := "platform.owner"
  const ROLE_PLATFORM_ADMIN := "platform.admin"
  const ROLE_TENANT_OWNER := "tenant.owner"
  const ROLE_TENANT_ADMIN := "tenant.admin"
  const ROLE_SAKER_RUNNER := "app.saker.runner"
  const ROLE_FRONTEND_USER := "frontend.user"

  const KNOWN_ROLE_KEYS: set<string> := {
    ROLE_PLATFORM_OWNER, ROLE_PLATFORM_ADMIN, ROLE_TENANT_OWNER, ROLE_TENANT_ADMIN,
    "tenant.operator", "tenant.viewer", "team.admin", "team.editor", "team.viewer",
    ROLE_SAKER_RUNNER, "app.chathub.user", "app.filehub.editor", "app.skillhub.publisher",
    "app.aihub.user", "app.aihub.viewer", "app.aihub.admin", ROLE_FRONTEND_USER,
    "app.sakerweb.viewer", "app.sakerweb.user", "app.sakerweb.operator"
  }

  const SHORTHAND_ROLES: map<string, string> := map[
    "owner" := ROLE_TENANT_OWNER, "admin" := ROLE_TENANT_ADMIN, "operator" := "tenant.operator",
    "viewer" := "tenant.viewer", "user" := ROLE_FRONTEND_USER, "moderator" := "app.skillhub.publisher"
  ]

  datatype RoleGrant = RoleGrant(key: string, scopeType: string, scopeID: string)

  datatype Policy = Policy(roleScopes: map<string, seq<string>>)

  /** The canonical role key, when the name is a known role or a shorthand. */
  function NormalizeRoleKey(role: string): Option<string> {
    var role := TrimSpace(role);
    if role == "" then None
    else if '.' in role then (if role in KNOWN_ROLE_KEYS then Some(role) else None)
    else if role in SHORTHAND_ROLES then Some(SHORTHAND_ROLES[role])
    else None
  }

  /** The scopes one grant carries under a policy. */
  function Granted(p: Policy, role: RoleGrant): seq<string> {
    var key := NormalizeRoleKey(role.key);
    if key.Some? && key.value in p.roleScopes then p.roleScopes[key.value] else []
  }

  /** The scopes of a list of grants: the union over the grants, as a set. */
  function ScopeSet(p: Policy, roles: seq<RoleGrant>): set<string> {
    set r, sc | r in roles && sc in Granted(p, r) :: sc
  }

  ghost function ScopesForRoles(p: Policy, roles: seq<RoleGrant>): seq<string> {
    Sorted(ScopeSet(p, roles))
  }

  /** `sliceSet`: the trimmed, non-empty values of a list. */
  function SliceSet(values: seq<string>): set<string> {
    set v | v in values && !Blank(v) :: TrimSpace(v)
  }

  const SKILLHUB := "skillhub"
  const FILEHUB := "filehub"
  const CHATHUB := "chathub"
  const FILESTORE := "filestore"
  const SAKER := "saker"
  const SAKERWEB := "sakerweb"
  const SYNAPSE := "synapse"
  const WEBHUB := "webhub"
  const AIHUB := "aihub"
  const STOCKHUB := "stockhub"
  const KNOWHUB := "knowhub"
  const WARDEN := "warden"

  /** The scope of an audience: its name, a colon and a verb. */
  function Scope(audience: string, verb: string): string {
    audience + ":" + verb
  }

  /** The verb of the scope that an action asks for, when the audience knows the action. */
  function VerbForAction(audience: string, rawAction: string): Option<string> {
    var action := TrimSpace(ToLower(rawAction));
    if audience == CHATHUB then
      if action in {"read", "list"} then Some("read")
      else if action in {"write", "run", "delete", "archive"} then Some("write")
      else if action == "admin" then Some("admin") else None
    else if audience == FILEHUB then
      if action in {"read", "list"} then Some("read")
      else if action in {"upload", "create"} then Some("upload")
      else if action in {"write", "update", "delete"} then Some("write")
      else if action == "admin" then Some("admin") else None
    else if audience == SKILLHUB then
      if action in {"read", "list"} then Some("read")
      else if action in {"write", "update"} then Some("write")
      else if action == "publish" then Some("publish")
      else if action == "admin" then Some("admin") else None
    else if audience == SAKER then
      if action == "run" then Some("run")
      else if action in {"tool:execute", "execute"} then Some("tool:execute")
      else if action in {"tool:approve", "approve"} then Some("tool:approve") else None
    else if audience == SAKERWEB then
      if action in {"read", "list", "get", "view"} then Some("read")
      else if action in {"write", "create", "update", "delete"} then Some("write")
      else if action == "run" then Some("run")
      else if action == "terminal" then Some("terminal") else None
    else if audience == FILESTORE then
      if action in {"read", "list"} then Some("read")
      else if action in {"write", "upload", "delete"} then Some("write")
      else if action == "admin" then Some("admin") else None
    else if audience == SYNAPSE then
      if action in {"read", "list"} then Some("read")
      else if action in {"write", "update"} then Some("write")
      else if action == "admin" then Some("admin") else None
    else if audience == WEBHUB then
      if action in {"notifications:write", "notify", "write"} then Some("notifications:write") else None
    else if audience == AIHUB then
      if action in {"read", "list"} then Some("read")
      else if action in {"invoke", "run", "write", "update", "delete"} then Some("invoke")
      else if action == "admin" then Some("admin") else None
    else if audience == STOCKHUB then
      if action in {"read", "list", "search"} then Some("read")
      else if action == "retrieve" then Some("retrieve")
      else if action in {"upload", "create"} then Some("upload")
      else if action in {"write", "update", "delete", "archive"} then Some("write")
      else if action in {"review", "publish"} then Some("review")
      else if action == "admin" then Some("admin") else None
    else if audience == WARDEN then
      if action in {"read", "list"} then Some("read")
      else if action in {"write", "update", "delete"} then Some("write")
      else if action == "admin" then Some("admin") else None
    else None
  }

  function ScopesForAction(audience: string, action: string): seq<string> {
    match VerbForAction(audience, action)
    case Some(verb) => [Scope(audience, verb)]
    case None => []
  }

  function DefaultVerbs(audience: string): seq<string> {
    if audience == SKILLHUB then ["read", "write"]
    else if audience == FILEHUB then ["read", "upload", "write"]
    else if audience == CHATHUB then ["read", "write"]
    else if audience == FILESTORE then ["read", "write"]
    else if audience == SAKER then ["run", "tool:execute"]
    else if audience == SAKERWEB then ["read", "write", "run", "terminal"]
    else if audience == WEBHUB then ["notifications:write"]
    else if audience == AIHUB then ["read", "invoke"]
    else if audience == STOCKHUB then ["read", "retrieve"]
    else if audience == KNOWHUB then ["read", "retrieve"]
    else if audience == WARDEN then ["read"]
    else []
  }

  function DefaultScopes(audience: string): seq<string> {
    var verbs := DefaultVerbs(audience);
    seq(|verbs|, i requires 0 <= i < |verbs| => Scope(audience, verbs[i]))
  }

  /** The scopes that the recognized actions name. */
  function Recognized(audience: string, actions: seq<string>): set<string> {
    set a, sc | a in actions && sc in ScopesForAction(audience, a) :: sc
  }

  /** What a token request asks for: the recognized scopes, or the audience default if there are none. */
  function Requested(audience: string, actions: seq<string>): set<string> {
    if Recognized(audience, actions) == {} then Elements(DefaultScopes(audience))
    else Recognized(audience, actions)
  }

  ghost function ScopesForActions(p: Policy, roles: seq<RoleGrant>, audience: string, actions: seq<string>): seq<string> {
    Sorted(Requested(audience, actions) * SliceSet(ScopesForRoles(p, roles)))
  }

  ghost function IntersectScopes(left: seq<string>, right: seq<string>): seq<string> {
    Sorted(SliceSet(left) * Elements(right))
  }

  predicate CanManageServiceAccounts(roles: seq<RoleGrant>) {
    exists r :: r in roles && NormalizeRoleKey(r.key) in
      {Some(ROLE_PLATFORM_OWNER), Some(ROLE_PLATFORM_ADMIN), Some(ROLE_TENANT_OWNER), Some(ROLE_TENANT_ADMIN)}
  }

  predicate TrimmedScope(sc: string) {
    sc != "" && TrimSpace(sc) == sc
  }

  /** A policy as `NewPolicy` builds it: every scope is trimmed and non-empty. */
  ghost predicate Trimmed(p: Policy) {
    forall key, sc :: key in p.roleScopes && sc in p.roleScopes[key] ==> TrimmedScope(sc)
  }

  // ----- the tables, as the documentation of each audience lists them -----

  /** The actions that ask for a verb of an audience. */
  function ActionsFor(audience: string, verb: string): set<string> {
    if audience == "chathub" then
      if verb == "read" then {"read", "list"} else if verb == "write" then {"write", "run", "delete", "archive"}
      else if verb == "admin" then {"admin"} else {}
    else if audience == "filehub" then
      if verb == "read" then {"read", "list"} else if verb == "upload" then {"upload", "create"}
      else if verb == "write" then {"write", "update", "delete"} else if verb == "admin" then {"admin"} else {}
    else if audience == "skillhub" then
      if verb == "read" then {"read", "list"} else if verb == "write" then {"write", "update"} else if verb == "publish" then {"publish"}
      else if verb == "admin" then {"admin"} else {}
    else if audience == "saker" then
      if verb == "run" then {"run"} else if verb == "tool:execute" then {"tool:execute", "execute"}
      else if verb == "tool:approve" then {"tool:approve", "approve"} else {}
    else if audience == "sakerweb" then
      if verb == "read" then {"read", "list", "get", "view"} else if verb == "write" then {"write", "create", "update", "delete"}
      else if verb == "run" then {"run"} else if verb == "terminal" then {"terminal"} else {}
    else if audience == "filestore" then
      if verb == "read" then {"read", "list"} else if verb == "write" then {"write", "upload", "delete"}
      else if verb == "admin" then {"admin"} else {}
    else if audience == "synapse" then
      if verb == "read" then {"read", "list"} else if verb == "write" then {"write", "update"} else if verb == "admin" then {"admin"} else {}
    else if audience == "webhub" then
      if verb == "notifications:write" then {"notifications:write", "notify", "write"} else {}
    else if audience == "aihub" then
      if verb == "read" then {"read", "list"} else if verb == "invoke" then {"invoke", "run", "write", "update", "delete"}
      else if verb == "admin" then {"admin"} else {}
    else if audience == "stockhub" then
      if verb == "read" then {"read", "list", "search"} else if verb == "retrieve" then {"retrieve"}
      else if verb == "upload" then {"upload", "create"} else if verb == "write" then {"write", "update", "delete", "archive"}
      else if verb == "review" then {"review", "publish"} else if verb == "admin" then {"admin"} else {}
    else if audience == "warden" then
      if verb == "read" then {"read", "list"} else if verb == "write" then {"write", "update", "delete"}
      else if verb == "admin" then {"admin"} else {}
    else {}
  }

  const DEFAULTS: map<string, seq<string>> := map[
    "skillhub" := ["read", "write"], "filehub" := ["read", "upload", "write"], "chathub" := ["read", "write"], "filestore" := ["read", "write"],
    "saker" := ["run", "tool:execute"], "sakerweb" := ["read", "write", "run", "terminal"], "webhub" := ["notifications:write"],
    "aihub" := ["read", "invoke"], "stockhub" := ["read", "retrieve"], "knowhub" := ["read", "retrieve"], "warden" := ["read"]
  ]

  lemma VerbsChat(audience: string, raw: string, verb: string)
    requires audience == "chathub" || audience == "filehub"
    ensures VerbForAction(audience, raw) == Some(verb) <==> TrimSpace(ToLower(raw)) in ActionsFor(audience, verb)
  {
    hide TrimSpace, ToLower;
  }

  lemma VerbsSkill(audience: string, raw: string, verb: string)
    requires audience == "skillhub" || audience == "saker" || audience == "sakerweb"
    ensures VerbForAction(audience, raw) == Some(verb) <==> TrimSpace(ToLower(raw)) in ActionsFor(audience, verb)
  {
    hide TrimSpace, ToLower;
  }

  lemma VerbsStore(audience: string, raw: string, verb: string)
    requires audience == "filestore" || audience == "synapse" || audience == "webhub"
    ensures VerbForAction(audience, raw) == Some(verb) <==> TrimSpace(ToLower(raw)) in ActionsFor(audience, verb)
  {
    hide TrimSpace, ToLower;
  }

  lemma VerbsStock(audience: string, raw: string, verb: string)
    requires audience == "aihub" || audience == "stockhub"
    ensures VerbForAction(audience, raw) == Some(verb) <==> TrimSpace(ToLower(raw)) in ActionsFor(audience, verb)
  {
    hide TrimSpace, ToLower;
  }

  lemma VerbsWarden(audience: string, raw: string, verb: string)
    requires audience == "warden"
    ensures VerbForAction(audience, raw) == Some(verb) <==> TrimSpace(ToLower(raw)) in ActionsFor(audience, verb)
  {
    hide TrimSpace, ToLower;
  }

  lemma VerbsNone(audience: string, raw: string, verb: string)
    requires audience !in AUDIENCES
    ensures VerbForAction(audience, raw).None? && ActionsFor(audience, verb) == {}
  {
    hide TrimSpace, ToLower;
  }

  const AUDIENCES := {"chathub", "filehub", "skillhub", "saker", "sakerweb", "filestore", "synapse", "webhub", "aihub", "stockhub", "warden"}

  /** An action asks for a verb of an audience exactly if the table says so, in any case and spacing. */
  lemma VerbExactly(audience: string, raw: string, verb: string)
    ensures VerbForAction(audience, raw) == Some(verb) <==> TrimSpace(ToLower(raw)) in ActionsFor(audience, verb)
  {
    hide TrimSpace, ToLower, VerbForAction, ActionsFor;
    if audience !in AUDIENCES { VerbsNone(audience, raw, verb); }
    else if audience == "chathub" || audience == "filehub" { VerbsChat(audience, raw, verb); }
    else if audience == "skillhub" || audience == "saker" || audience == "sakerweb" { VerbsSkill(audience, raw, verb); }
    else if audience == "filestore" || audience == "synapse" || audience == "webhub" { VerbsStore(audience, raw, verb); }
    else if audience == "aihub" || audience == "stockhub" { VerbsStock(audience, raw, verb); }
    else if audience == "warden" { VerbsWarden(audience, raw, verb); }
  }

  lemma DefaultsExactly(audience: string)
    ensures DefaultVerbs(audience) == if audience in DEFAULTS then DEFAULTS[audience] else []
  {
  }

  predicate Asks(audience: string, actions: seq<string>, verb: string) {
    exists i :: 0 <= i < |actions| && VerbForAction(audience, actions[i]) == Some(verb)
  }

  lemma RecognizedExactly(audience: string, actions: seq<string>, verb: string)
    ensures audience + ":" + verb in Recognized(audience, actions) <==> Asks(audience, actions, verb)
    ensures forall sc :: sc in Recognized(audience, actions) ==> exists v :: Asks(audience, actions, v) && sc == audience + ":" + v
  {
    hide VerbForAction;
    forall sc | sc in Recognized(audience, actions) ensures exists v :: Asks(audience, actions, v) && sc == audience + ":" + v {
      var a :| a in actions && sc in ScopesForAction(audience, a);
      var i :| 0 <= i < |actions| && actions[i] == a;
      assert VerbForAction(audience, actions[i]) == Some(VerbForAction(audience, a).value);
      assert Asks(audience, actions, VerbForAction(audience, a).value);
    }
    if Asks(audience, actions, verb) {
      var i :| 0 <= i < |actions| && VerbForAction(audience, actions[i]) == Some(verb);
      assert actions[i] in actions && audience + ":" + verb in ScopesForAction(audience, actions[i]);
    }
    if audience + ":" + verb in Recognized(audience, actions) {
      var v :| Asks(audience, actions, v) && audience + ":" + verb == audience + ":" + v;
      assert (audience + ":" + verb)[|audience| + 1..] == verb && (audience + ":" + v)[|audience| + 1..] == v;
    }
  }

  /** What a request asks for: the verbs that some action names, or, if no action names any, the default
      verbs of the audience. */
  lemma RequestedExactly(audience: string, actions: seq<string>, verb: string)
    ensures audience + ":" + verb in Requested(audience, actions) <==>
      if exists v :: Asks(audience, actions, v) then Asks(audience, actions, verb) else verb in DefaultVerbs(audience)
  {
    hide Asks, Recognized, DefaultVerbs;
    RecognizedExactly(audience, actions, verb);
    if v :| Asks(audience, actions, v) { RecognizedExactly(audience, actions, v); }
    var all := DefaultScopes(audience);
    if verb in DefaultVerbs(audience) {
      var i :| 0 <= i < |DefaultVerbs(audience)| && DefaultVerbs(audience)[i] == verb;
      assert all[i] == audience + ":" + verb;
    }
    if i :| 0 <= i < |all| && all[i] == audience + ":" + verb {
      assert all[i][|audience| + 1..] == DefaultVerbs(audience)[i] && (audience + ":" + verb)[|audience| + 1..] == verb;
    }
  }

  /** Which names are roles, and which role each stands for. */
  lemma RoleNames(raw: string, key: string)
    ensures NormalizeRoleKey(raw) == Some(key) <==>
      var name := TrimSpace(raw);
      || (name == key && '.' in name && name in {"platform.owner", "platform.admin", "tenant.owner", "tenant.admin", "tenant.operator", "tenant.viewer",
            "team.admin", "team.editor", "team.viewer", "app.saker.runner", "app.chathub.user", "app.filehub.editor", "app.skillhub.publisher",
            "app.aihub.user", "app.aihub.viewer", "app.aihub.admin", "frontend.user", "app.sakerweb.viewer", "app.sakerweb.user", "app.sakerweb.operator"})
      || ('.' !in name && (name, key) in {("owner", "tenant.owner"), ("admin", "tenant.admin"), ("operator", "tenant.operator"),
            ("viewer", "tenant.viewer"), ("user", "frontend.user"), ("moderator", "app.skillhub.publisher")})
  {
    hide TrimSpace;
  }

  // ----- the loops of policy.go, proved against the set specification -----

  method EvalScopesForRoles(p: Policy, roles: seq<RoleGrant>) returns (out: seq<string>)
    ensures out == ScopesForRoles(p, roles)
  {
    hide NormalizeRoleKey;
    var scopes: set<string> := {};
    for i := 0 to |roles|
      invariant scopes == ScopeSet(p, roles[..i])
    {
      var key := NormalizeRoleKey(roles[i].key);
      ghost var before := scopes;
      if key.Some? && key.value in p.roleScopes {
        scopes := scopes + Elements(p.roleScopes[key.value]);
      }
      assert roles[..i + 1] == roles[..i] + [roles[i]];
      assert scopes == before + Elements(Granted(p, roles[i]));
    }
    assert roles[..|roles|] == roles;
    out := SortedKeys(scopes);
  }

  method EvalSliceSet(values: seq<string>) returns (out: set<string>)
    ensures out == SliceSet(values)
  {
    out := {};
    for i := 0 to |values|
      invariant out == SliceSet(values[..i])
    {
      var v := TrimSpace(values[i]);
      assert values[..i + 1] == values[..i] + [values[i]];
      if v != "" { out := out + {v}; }
    }
    assert values[..|values|] == values;
  }

  method EvalRecognized(audience: string, actions: seq<string>) returns (out: set<string>)
    ensures out == Recognized(audience, actions)
  {
    hide ScopesForAction;
    out := {};
    for i := 0 to |actions|
      invariant out == Recognized(audience, actions[..i])
    {
      out := out + Elements(ScopesForAction(audience, actions[i]));
      assert actions[..i + 1] == actions[..i] + [actions[i]];
    }
    assert actions[..|actions|] == actions;
  }

  method EvalScopesForActions(p: Policy, roles: seq<RoleGrant>, audience: string, actions: seq<string>)
    returns (out: seq<string>)
    ensures out == ScopesForActions(p, roles, audience, actions)
  {
    hide DefaultScopes, Recognized, SliceSet, ScopesForRoles;
    var granted := EvalScopesForRoles(p, roles);
    var allowed := EvalSliceSet(granted);
    var requested := EvalRecognized(audience, actions);
    if requested == {} { requested := Elements(DefaultScopes(audience)); }
    var kept: set<string> := {};
    var todo := requested;
    while todo != {}
      invariant todo <= requested && kept == (requested - todo) * allowed
      decreases todo
    {
      var scope :| scope in todo;
      if scope in allowed { kept := kept + {scope}; }
      todo := todo - {scope};
    }
    assert kept == requested * allowed;
    out := SortedKeys(kept);
  }

  method EvalIntersectScopes(left: seq<string>, right: seq<string>) returns (out: seq<string>)
    ensures out == IntersectScopes(left, right)
  {
    var lset := EvalSliceSet(left);
    var kept: set<string> := {};
    for i := 0 to |right|
      invariant kept == lset * Elements(right[..i])
    {
      assert right[..i + 1] == right[..i] + [right[i]];
      if right[i] in lset { kept := kept + {right[i]}; }
    }
    assert right[..|right|] == right;
    out := SortedKeys(kept);
  }

  // ----- building a policy -----

  ghost predicate KnownNames(input: map<string, seq<string>>) {
    forall role :: role in input ==> NormalizeRoleKey(role).Some?
  }

  /** What a walk over the names in a given order builds: the last name of a canonical role wins. */
  ghost function BuiltIn(input: map<string, seq<string>>, order: seq<string>): map<string, seq<string>>
    requires forall role :: role in order ==> role in input && NormalizeRoleKey(role).Some?
  {
    if order == [] then map[]
    else
      var last := order[|order| - 1];
      BuiltIn(input, order[..|order| - 1])[NormalizeRoleKey(last).value := Sorted(SliceSet(input[last]))]
  }

  /** `NewPolicy`: it fails exactly when a name is unknown; otherwise it builds what some order of the
      names builds. */
  method NewPolicy(roleScopes: map<string, seq<string>>, defaults: Policy) returns (r: Result<Policy, string>)
    ensures roleScopes == map[] ==> r == Ok(defaults)
    ensures roleScopes != map[] ==> (r.Ok? <==> KnownNames(roleScopes))
    ensures r.Ok? && roleScopes != map[] ==>
      exists order :: Enumerates(order, roleScopes.Keys) && r.value.roleScopes == BuiltIn(roleScopes, order)
  {
    hide NormalizeRoleKey, SliceSet;
    if roleScopes == map[] { return Ok(defaults); }
    var normalized: map<string, seq<string>> := map[];
    ghost var order: seq<string> := [];
    var todo := roleScopes.Keys;
    while todo != {}
      invariant todo <= roleScopes.Keys && Enumerates(order, roleScopes.Keys - todo)
      invariant forall role :: role in order ==> role in roleScopes && NormalizeRoleKey(role).Some?
      invariant normalized == BuiltIn(roleScopes, order)
      decreases todo
    {
      var role :| role in todo;
      var key := NormalizeRoleKey(role);
      if key.None? { return Err(role); }
      var scopes := EvalSliceSet(roleScopes[role]);
      var sorted := SortedKeys(scopes);
      assert (order + [role])[..|order|] == order;
      normalized := normalized[key.value := sorted];
      order, todo := order + [role], todo - {role};
    }
    assert roleScopes.Keys - todo == roleScopes.Keys;
    r := Ok(Policy(normalized));
  }

  /** Each canonical role of a built policy carries the scopes of one of its names. */
  lemma {:induction false} BuiltFrom(input: map<string, seq<string>>, order: seq<string>, key: string)
    requires forall role :: role in order ==> role in input && NormalizeRoleKey(role).Some?
    ensures key in BuiltIn(input, order) <==> exists role :: role in order && NormalizeRoleKey(role) == Some(key)
    ensures key in BuiltIn(input, order) ==>
      exists role :: role in order && NormalizeRoleKey(role) == Some(key) && BuiltIn(input, order)[key] == Sorted(SliceSet(input[role]))
    decreases |order|
  {
    hide NormalizeRoleKey, SliceSet;
    if order != [] {
      var n, last := |order| - 1, order[|order| - 1];
      BuiltFrom(input, order[..n], key);
      assert forall role :: role in order <==> role in order[..n] || role == last;
    }
  }

  /** A built policy holds trimmed scopes only. */
  lemma BuiltTrimmed(input: map<string, seq<string>>, order: seq<string>)
    requires forall role :: role in order ==> role in input && NormalizeRoleKey(role).Some?
    ensures Trimmed(Policy(BuiltIn(input, order)))
  {
    hide NormalizeRoleKey;
    var out := BuiltIn(input, order);
    forall key, sc | key in out && sc in out[key] ensures TrimmedScope(sc) {
      BuiltFrom(input, order, key);
      var role :| role in order && NormalizeRoleKey(role) == Some(key) && out[key] == Sorted(SliceSet(input[role]));
      assert sc in Elements(out[key]);
      var v :| v in input[role] && !Blank(v) && TrimSpace(v) == sc;
      TrimIdempotent(v);
    }
  }

  /** Names of one canonical role list the same scopes. */
  ghost predicate Agree(input: map<string, seq<string>>) {
    forall a, b :: a in input && b in input && NormalizeRoleKey(a) == NormalizeRoleKey(b) ==> SliceSet(input[a]) == SliceSet(input[b])
  }

  lemma AgreedPolicy(input: map<string, seq<string>>, a: seq<string>, b: seq<string>)
    requires KnownNames(input) && Agree(input) && Enumerates(a, input.Keys) && Enumerates(b, input.Keys)
    ensures BuiltIn(input, a) == BuiltIn(input, b)
  {
    hide NormalizeRoleKey, BuiltIn;
    var x, y := BuiltIn(input, a), BuiltIn(input, b);
    forall key ensures key in x <==> key in y {
      BuiltFrom(input, a, key);
      BuiltFrom(input, b, key);
    }
    forall key | key in x ensures x[key] == y[key] {
      BuiltFrom(input, a, key);
      BuiltFrom(input, b, key);
    }
  }

  lemma LastWins(input: map<string, seq<string>>, rest: seq<string>, last: string)
    requires forall role :: role in rest + [last] ==> role in input && NormalizeRoleKey(role).Some?
    ensures last in rest + [last]
    ensures var key := NormalizeRoleKey(last).value;
      key in BuiltIn(input, rest + [last]) && Elements(BuiltIn(input, rest + [last])[key]) == SliceSet(input[last])
  {
    hide NormalizeRoleKey;
    assert (rest + [last])[..|rest|] == rest;
  }

  /** Two names of one role with different scopes: two orders build different policies. */
  lemma DisagreedPolicies(input: map<string, seq<string>>, r1: string, r2: string) returns (a: seq<string>, b: seq<string>)
    requires KnownNames(input) && r1 in input && r2 in input
    requires NormalizeRoleKey(r1) == NormalizeRoleKey(r2) && SliceSet(input[r1]) != SliceSet(input[r2])
    ensures Enumerates(a, input.Keys) && Enumerates(b, input.Keys) && BuiltIn(input, a) != BuiltIn(input, b)
  {
    hide NormalizeRoleKey, SliceSet, BuiltIn;
    var p := SomeOrder(input.Keys - {r1});
    var q := SomeOrder(input.Keys - {r2});
    a, b := p + [r1], q + [r2];
    LastWins(input, p, r1);
    LastWins(input, q, r2);
  }

  /** The exact condition: what `NewPolicy` builds is independent of the map order if and only if
      names of one canonical role list the same scopes. */
  lemma NewPolicyDeterministic(input: map<string, seq<string>>)
    requires KnownNames(input)
    ensures Agree(input) <==>
      forall a, b :: Enumerates(a, input.Keys) && Enumerates(b, input.Keys) ==> BuiltIn(input, a) == BuiltIn(input, b)
  {
    hide NormalizeRoleKey;
    if Agree(input) {
      forall a, b | Enumerates(a, input.Keys) && Enumerates(b, input.Keys)
        ensures (forall role :: role in a || role in b ==> role in input) && BuiltIn(input, a) == BuiltIn(input, b)
      {
        OrderMembers(a, input.Keys);
        OrderMembers(b, input.Keys);
        AgreedPolicy(input, a, b);
      }
    } else {
      var r1, r2 :| r1 in input && r2 in input && NormalizeRoleKey(r1) == NormalizeRoleKey(r2) && SliceSet(input[r1]) != SliceSet(input[r2]);
      var a, b := DisagreedPolicies(input, r1, r2);
    }
  }

  lemma OrderMembers(order: seq<string>, keys: set<string>)
    requires Enumerates(order, keys)
    ensures forall k :: k in order <==> k in keys
  {
  }

  // ----- properties -----

  lemma SliceSetOfTrimmed(values: seq<string>)
    requires forall v :: v in values ==> TrimmedScope(v)
    ensures SliceSet(values) == Elements(values)
  {
    forall x | x in Elements(values) ensures x in SliceSet(values) { assert !Blank(x); }
  }

  lemma GrantedIsTrimmed(p: Policy, role: RoleGrant, sc: string)
    requires Trimmed(p) && sc in Granted(p, role)
    ensures TrimmedScope(sc)
  {
    hide NormalizeRoleKey;
    var key := NormalizeRoleKey(role.key).value;
    assert key in p.roleScopes && sc in p.roleScopes[key];
  }

  lemma GrantedTrimmed(p: Policy, roles: seq<RoleGrant>)
    requires Trimmed(p)
    ensures SliceSet(ScopesForRoles(p, roles)) == ScopeSet(p, roles)
    ensures forall sc :: sc in ScopeSet(p, roles) ==> TrimmedScope(sc)
  {
    hide Granted;
    forall sc | sc in ScopeSet(p, roles) ensures TrimmedScope(sc) {
      var r :| r in roles && sc in Granted(p, r);
      GrantedIsTrimmed(p, r, sc);
    }
    forall v | v in ScopesForRoles(p, roles) ensures v in ScopeSet(p, roles) {
      assert v in Elements(ScopesForRoles(p, roles));
    }
    SliceSetOfTrimmed(ScopesForRoles(p, roles));
  }

  /** Every canonical role of `a` is also one of `b`. */
  ghost predicate RolesWithin(a: seq<RoleGrant>, b: seq<RoleGrant>) {
    forall r :: r in a ==> exists q :: q in b && NormalizeRoleKey(q.key) == NormalizeRoleKey(r.key)
  }

  lemma RolesMonotone(p: Policy, a: seq<RoleGrant>, b: seq<RoleGrant>)
    requires RolesWithin(a, b)
    ensures ScopeSet(p, a) <= ScopeSet(p, b)
  {
    hide NormalizeRoleKey;
    forall sc | sc in ScopeSet(p, a) ensures sc in ScopeSet(p, b) {
      var r :| r in a && sc in Granted(p, r);
      var q :| q in b && NormalizeRoleKey(q.key) == NormalizeRoleKey(r.key);
      assert Granted(p, q) == Granted(p, r);
    }
  }

  /** Only the set of canonical roles matters: order, duplicates and spelling do not. */
  lemma RolesMatterAsSet(p: Policy, a: seq<RoleGrant>, b: seq<RoleGrant>)
    requires RolesWithin(a, b) && RolesWithin(b, a)
    ensures ScopesForRoles(p, a) == ScopesForRoles(p, b)
  {
    hide RolesWithin, Granted;
    RolesMonotone(p, a, b);
    RolesMonotone(p, b, a);
    assert ScopeSet(p, a) == ScopeSet(p, b);
  }

  /** For a policy built by `NewPolicy`, an evaluated list holds exactly the scopes that are granted
      and requested, and nothing else. */
  lemma ScopesForActionsExact(p: Policy, roles: seq<RoleGrant>, audience: string, actions: seq<string>, sc: string)
    requires Trimmed(p)
    ensures sc in ScopesForActions(p, roles, audience, actions) <==>
            sc in ScopeSet(p, roles) && sc in Requested(audience, actions)
  {
    GrantedTrimmed(p, roles);
    var out := ScopesForActions(p, roles, audience, actions);
    assert sc in out <==> sc in Elements(out);
  }

  /** Every scope evaluated for an audience begins with that audience and a colon. */
  lemma AudienceConfined(p: Policy, roles: seq<RoleGrant>, audience: string, actions: seq<string>, sc: string)
    requires sc in ScopesForActions(p, roles, audience, actions)
    ensures audience + ":" <= sc
  {
    hide VerbForAction, DefaultVerbs, TrimSpace, ScopesForRoles;
    assert sc in Elements(ScopesForActions(p, roles, audience, actions));
    assert sc in Requested(audience, actions);
    if Recognized(audience, actions) == {} {
      var i :| 0 <= i < |DefaultScopes(audience)| && DefaultScopes(audience)[i] == sc;
      assert sc == Scope(audience, DefaultVerbs(audience)[i]);
    } else {
      var a :| a in actions && sc in ScopesForAction(audience, a);
    }
  }

  lemma IntersectIsCommon(left: seq<string>, right: seq<string>, sc: string)
    ensures sc in IntersectScopes(left, right) <==> sc in SliceSet(left) && sc in right
  {
    var out := IntersectScopes(left, right);
    assert sc in out <==> sc in Elements(out);
  }
}
