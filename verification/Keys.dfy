/** Privilege never grows through keys: what a token can carry, over any run in which policies and
    roles may change between a key's creation and its use. */
module Keys {
  import opened Text
  import opened Calendar
  import opened Policies
  import opened Iam
  import opened Tokens
  import opened Identity
  import opened Runs
  import opened Histories

  /** Policies that are ever installed come from `NewPolicy`: their scopes are trimmed. */
  ghost predicate TrimmedPolicies(ops: seq<Op>) {
    forall i :: 0 <= i < |ops| && ops[i].SetPolicy? ==> Trimmed(ops[i].policy)
  }

  lemma {:induction false} PolicyAlwaysTrimmed(env: Env, run: Run, i: nat)
    requires FromEmpty(env, run) && TrimmedPolicies(run.ops) && i <= |run.ops|
    ensures Trimmed(run.states[i].policy)
  {
    hide Shaped, ReportsWithin, Linked;
    EmptyShaped(env, CleanIds);
    if i > 0 {
      PolicyAlwaysTrimmed(env, run, i - 1);
      StepAt(env, CleanIds, run, i - 1);
      PolicyMarked(env, run, i - 1);
      if run.ops[i - 1].SetPolicy? { PolicySet(env, run, i - 1); }
    }
  }

  lemma PolicyMarked(env: Env, run: Run, i: nat)
    requires IsRun(env, run) && i < |run.ops|
    ensures run.effects[i].policy == run.ops[i].SetPolicy?
  {
    hide Apply, GrantedBy, SignedIn, NewKey, Creator, ApprovedCode, ConsumedCode, IssuedBy;
    assert Linked(env, run, i);
  }

  lemma PolicySet(env: Env, run: Run, i: nat)
    requires IsRun(env, run) && i < |run.ops| && run.ops[i].SetPolicy?
    ensures run.states[i + 1].policy == run.ops[i].policy
  {
    hide EffectOf;
    assert Linked(env, run, i);
  }

  // ----- where keys come from -----

  /** The scopes of a key are held by a principal under a policy. */
  ghost predicate HeldBy(key: APIKey, p: Policy, creator: Principal) {
    Elements(key.scopes) <= SliceSet(ScopesForRoles(p, creator.roles))
  }

  lemma CreatedKey(env: Env, checked: Validated, name: string, scopes: seq<string>, expiresAt: Time, now: Time, random: KeyRandom)
    ensures var (t, r) := CreateAPIKey(env, checked, name, scopes, expiresAt, now, random);
      r.Ok? ==> Caller(checked).Some? && HeldBy(r.value, checked.0.policy, Caller(checked).value)
                && r.value.principalID == Caller(checked).value.id && r.value.keyHash in t.apiKeys && t.apiKeys[r.value.keyHash] == r.value
  {
    hide ScopesForRoles;
  }

  lemma CreatedServiceKey(env: Env, checked: Validated, name: string, scopes: seq<string>, expiresAt: Time, now: Time, random: KeyRandom)
    ensures var (t, r) := CreateServiceAccountToken(env, checked, name, scopes, expiresAt, now, random);
      r.Ok? ==>
        var account := r.value.principalID;
        && Caller(checked).Some? && HeldBy(r.value, checked.0.policy, Caller(checked).value)
        && account in t.accounts && t.accounts[account].createdBy == Caller(checked).value.id
        && account in t.principals && t.principals[account].kind.ServiceAccount?
        && r.value.keyHash in t.apiKeys && t.apiKeys[r.value.keyHash] == r.value
  {
    hide ScopesForRoles, CanManageServiceAccounts;
  }

  lemma ScopesWithinSlice(p: Policy, roles: seq<RoleGrant>)
    requires Trimmed(p)
    ensures Elements(ScopesForRoles(p, roles)) <= SliceSet(ScopesForRoles(p, roles))
  {
    hide Granted;
    GrantedTrimmed(p, roles);
  }

  /** A call that makes a key stores it, with scopes its creator holds at that moment, for its creator
      or for the service account that the call creates in the creator's name. */
  lemma NewKeyStored(env: Env, s: State, op: Op)
    requires Shaped(s) && Trimmed(s.policy) && NewKey(env, s, op).Some?
    ensures var key, t := NewKey(env, s, op).value, Apply(env, s, op);
      && key.keyHash in t.apiKeys && t.apiKeys[key.keyHash] == key
      && Creator(env, s, op).Some? && HeldBy(key, s.policy, Creator(env, s, op).value)
      && (if op.MakeServiceKey? then key.principalID in t.accounts && t.accounts[key.principalID].createdBy == Creator(env, s, op).value.id
          else key.principalID == Creator(env, s, op).value.id)
  {
    hide SessionsShaped;
    match op {
      case MakeKey(id, name, scopes, expiresAt, now, source, key) =>
        CreatedKey(env, ValidateSession(env, s, id, now, source), name, scopes, expiresAt, now, key);
        PolicyKept(env, s, id, now, source);
      case MakeServiceKey(id, name, scopes, expiresAt, now, source, key) =>
        CreatedServiceKey(env, ValidateSession(env, s, id, now, source), name, scopes, expiresAt, now, key);
        PolicyKept(env, s, id, now, source);
      case ExchangeDevice(code, now, key) =>
        ExchangeFound(env, s, code, now, key);
        var p := Creator(env, s, op).value;
        assert RecordShaped(s.deviceCodes[TrimSpace(code)].principalID, p);
        ScopesWithinSlice(s.policy, p.roles);
    }
  }

  lemma PolicyKept(env: Env, s: State, id: string, now: Time, source: Source)
    requires Shaped(s)
    ensures ValidateSession(env, s, id, now, source).0.policy == s.policy
  {
    hide ValidateSession;
    ValidateOk(env, CleanIds, s, id, now, source);
  }

  /** The j-th call of the run makes this key and stores it under its hash, on its creator's authority:
      with scopes the creator holds at that moment, for the creator or for a service account that the
      call creates in the creator's name. */
  ghost predicate MadeAt(env: Env, run: Run, j: nat, h: string, key: APIKey)
    requires IsRun(env, run) && j < |run.ops|
  {
    var e, t := run.effects[j], run.states[j + 1];
    && e.made.Some? && e.made.value.keyHash == h && SameGrant(e.made.value, key)
    && h in t.apiKeys && t.apiKeys[h] == e.made.value
    && e.creator.Some? && HeldBy(key, run.states[j].policy, e.creator.value)
    && (if run.ops[j].MakeServiceKey? then key.principalID in t.accounts && t.accounts[key.principalID].createdBy == e.creator.value.id
        else key.principalID == e.creator.value.id)
  }

  lemma MakingCall(env: Env, run: Run, j: nat, key: APIKey)
    requires IsRun(env, run) && j < |run.ops| && Shaped(run.states[j]) && Trimmed(run.states[j].policy)
    requires run.effects[j].made.Some? && SameGrant(run.effects[j].made.value, key)
    ensures MadeAt(env, run, j, key.keyHash, key)
  {
    hide Shaped, GrantedBy, NewKey, Creator, ApprovedCode, IssuedBy, Apply, ScopesForRoles;
    assert Linked(env, run, j);
    NewKeyStored(env, run.states[j], run.ops[j]);
  }

  /** Every stored key was made by some earlier call, and no call since has changed its scopes or its
      holder: only its status and last use. */
  lemma {:induction false} KeyOrigin(env: Env, run: Run, i: nat, h: string) returns (j: nat)
    requires FromEmpty(env, run) && TrimmedPolicies(run.ops) && i <= |run.ops| && h in run.states[i].apiKeys
    ensures j < i && MadeAt(env, run, j, h, run.states[i].apiKeys[h])
    ensures forall m :: j < m <= i ==> h in run.states[m].apiKeys && SameGrant(run.states[m].apiKeys[h], run.states[i].apiKeys[h])
  {
    hide ReportsWithin, CodesWithin, Linked, MadeAt, TrimmedPolicies;
    EmptyShaped(env, CleanIds);
    StepAt(env, CleanIds, run, i - 1);
    var e, key := run.effects[i - 1], run.states[i].apiKeys[h];
    assert KeyWithin(e, run.states[i - 1].apiKeys, h, key);
    if e.made.Some? && e.made.value.keyHash == h && SameGrant(e.made.value, key) {
      j := i - 1;
      PolicyAlwaysTrimmed(env, run, j);
      MakingCall(env, run, j, key);
    } else {
      j := KeyOrigin(env, run, i - 1, h);
      StillMade(env, run, j, h, run.states[i - 1].apiKeys[h], key);
    }
  }

  lemma StillMade(env: Env, run: Run, j: nat, h: string, a: APIKey, b: APIKey)
    requires IsRun(env, run) && j < |run.ops| && MadeAt(env, run, j, h, a) && SameGrant(a, b)
    ensures MadeAt(env, run, j, h, b)
  {
    hide ScopesForRoles, Linked;
  }

  // ----- what tokens claim -----

  /** The roles that a token call acts with. */
  function ActingRoles(env: Env, s: State, op: Op): Option<seq<RoleGrant>>
    requires AsksForToken(op)
  {
    match op
    case TokenForSession(id, req, source) => RolesOf(Caller(ValidateSession(env, s, id, req.now, source)))
    case Delegate(id, _, _, req, source, _) => RolesOf(Caller(ValidateSession(env, s, id, req.now, source)))
    case TokenForKey(token, _, _) =>
      var h := HashAPIKey(env, token);
      if h in s.apiKeys && s.apiKeys[h].principalID in s.principals then Some(s.principals[s.apiKeys[h].principalID].roles) else None
    case TokenForClient(claims, _) => Some(ClientPrincipal(env, TrimSpace(claims.tenantID), claims).roles)
  }

  function RolesOf(p: Option<Principal>): Option<seq<RoleGrant>> {
    if p.Some? then Some(p.value.roles) else None
  }

  /** The scopes that a policy evaluates for a request and roles. */
  ghost predicate Evaluated(p: Policy, roles: seq<RoleGrant>, req: TokenRequest, sc: string) {
    sc in ScopesForActions(p, roles, req.audience, req.actions)
  }

  ghost predicate SessionScopes(env: Env, s: State, checked: Validated, g: Grant, req: TokenRequest) {
    Caller(checked).Some? && forall sc :: sc in g.scopes ==> Evaluated(s.policy, Caller(checked).value.roles, req, sc)
  }

  lemma AgentScopes(env: Env, checked: Validated, runID: string, scopes: seq<string>, req: TokenRequest, random: string)
    requires Trimmed(checked.0.policy)
    ensures var r := GrantAgent(env, checked, runID, scopes, req, random).1;
      r.Ok? ==> SessionScopes(env, checked.0, checked, r.value, req) && (scopes != [] ==> forall sc :: sc in r.value.scopes ==> sc in scopes)
  {
    hide ScopesForActions, IntersectScopes;
    var (s, r) := checked;
    if GrantAgent(env, checked, runID, scopes, req, random).1.Ok? {
      var held := ScopesForActions(s.policy, r.value.principal.roles, req.audience, req.actions);
      var wanted := if scopes == [] then held else scopes;
      EvaluatedTrimmed(s.policy, r.value.principal.roles, req);
      forall sc | sc in IntersectScopes(held, wanted) ensures sc in held && sc in wanted {
        IntersectIsCommon(held, wanted, sc);
        assert sc in Elements(held);
      }
    }
  }

  /** What is granted to a key: scopes of the key that are evaluated for its principal. */
  lemma KeyScopes(env: Env, s: State, token: string, req: TokenRequest, picked: string)
    ensures var r := GrantKey(env, ValidateAPIKey(env, s, token, req.now, picked), req).1;
      var h := HashAPIKey(env, token);
      r.Ok? ==>
        && h in s.apiKeys && s.apiKeys[h].principalID in s.principals
        && forall sc :: sc in r.value.scopes ==>
             sc in SliceSet(s.apiKeys[h].scopes) && Evaluated(s.policy, s.principals[s.apiKeys[h].principalID].roles, req, sc)
  {
    hide ScopesForActions;
    var (s1, r) := ValidateAPIKey(env, s, token, req.now, picked);
    if r.Ok? {
      var evaluated := ScopesForActions(s1.policy, r.value.principal.roles, req.audience, req.actions);
      forall sc | sc in IntersectScopes(r.value.key.scopes, evaluated) ensures sc in SliceSet(r.value.key.scopes) && sc in evaluated {
        IntersectIsCommon(r.value.key.scopes, evaluated, sc);
      }
    }
  }

  lemma ClientScopes(env: Env, s: State, claims: ClientClaims, req: TokenRequest)
    ensures var r := GrantClient(env, s, claims, req).1;
      r.Ok? ==> forall sc :: sc in r.value.scopes ==> Evaluated(s.policy, ClientPrincipal(env, TrimSpace(claims.tenantID), claims).roles, req, sc)
  {
    hide ScopesForActions, IntersectScopes, TrimSpace;
    var evaluated := ScopesForActions(s.policy, ClientPrincipal(env, TrimSpace(claims.tenantID), claims).roles, req.audience, req.actions);
    forall sc | sc in IntersectScopes(claims.scopes, evaluated) ensures sc in evaluated { IntersectIsCommon(claims.scopes, evaluated, sc); }
  }

  /** Nothing is granted beyond what is evaluated for the acting roles. */
  lemma GrantedScopes(env: Env, s: State, op: Op)
    requires Shaped(s) && Trimmed(s.policy) && AsksForToken(op) && GrantOf(env, s, op).1.Ok?
    ensures ActingRoles(env, s, op).Some?
    ensures forall sc :: sc in GrantOf(env, s, op).1.value.scopes ==> Evaluated(s.policy, ActingRoles(env, s, op).value, op.req, sc)
    ensures op.Delegate? && op.scopes != [] ==> forall sc :: sc in GrantOf(env, s, op).1.value.scopes ==> sc in op.scopes
  {
    hide ValidateSession, Evaluated, HashAPIKey, ClientPrincipal, Trimmed;
    match op {
      case TokenForSession(id, req, source) =>
        PolicyKept(env, s, id, req.now, source);
        SessionGrant(env, ValidateSession(env, s, id, req.now, source), req);
      case TokenForKey(token, req, picked) => KeyScopes(env, s, token, req, picked);
      case TokenForClient(claims, req) => ClientScopes(env, s, claims, req);
      case Delegate(id, runID, scopes, req, source, random) =>
        PolicyKept(env, s, id, req.now, source);
        AgentScopes(env, ValidateSession(env, s, id, req.now, source), runID, scopes, req, random);
    }
  }

  lemma SessionGrant(env: Env, checked: Validated, req: TokenRequest)
    ensures var r := GrantSession(env, checked, req).1; r.Ok? ==> SessionScopes(env, checked.0, checked, r.value, req)
  {
    hide ScopesForActions;
  }

  lemma GrantTTL(env: Env, s: State, op: Op)
    requires AsksForToken(op) && GrantOf(env, s, op).1.Ok?
    ensures GrantOf(env, s, op).1.value.ttl == TokenTTL(env, op)
  {
    hide ValidateSession, ScopesForActions, TrimSpace;
  }

  /** The scopes a token claims are exactly of those granted, and so evaluated, under the policy in
      force, for the roles that act and for what is asked. */
  lemma ClaimsWithinEvaluated(env: Env, s: State, op: Op, issued: Issued, sc: string)
    requires Shaped(s) && Trimmed(s.policy) && AsksForToken(op) && TokenTTL(env, op) > 0
    requires IssuedBy(env, s, op) == Ok(issued) && sc in issued.claims.scopes
    ensures GrantOf(env, s, op).1.Ok? && sc in GrantOf(env, s, op).1.value.scopes
    ensures ActingRoles(env, s, op).Some? && Evaluated(s.policy, ActingRoles(env, s, op).value, op.req, sc)
  {
    hide GrantOf, ActingRoles, Shaped, ScopesForActions, Issue;
    var (s1, r) := GrantOf(env, s, op);
    GrantedScopes(env, s, op);
    GrantTTL(env, s, op);
    IssuedClaims(env, s1, r.value, op.req, issued);
    Jwt.CleanExactly(r.value.scopes, sc);
    var n :| 0 <= n < |r.value.scopes| && TrimSpace(r.value.scopes[n]) == sc;
    var v := r.value.scopes[n];
    assert Evaluated(s.policy, ActingRoles(env, s, op).value, op.req, v);
    EvaluatedTrimmed(s.policy, ActingRoles(env, s, op).value, op.req);
  }

  /** A delegated token carries only scopes the acting user holds now for the request, and, when the
      caller lists scopes, only listed ones. */
  lemma DelegateClaims(env: Env, s: State, op: Op, issued: Issued, sc: string)
    requires Shaped(s) && Trimmed(s.policy) && op.Delegate? && env.agentTTL > 0
    requires IssuedBy(env, s, op) == Ok(issued) && sc in issued.claims.scopes
    ensures var actor := Caller(ValidateSession(env, s, op.sessionID, op.req.now, op.source));
      actor.Some? && sc in ScopeSet(s.policy, actor.value.roles) && sc in Requested(op.req.audience, op.req.actions)
    ensures op.scopes != [] ==> sc in op.scopes
  {
    hide ValidateSession, GrantOf, ScopeSet, Requested, IssuedBy;
    ClaimsWithinEvaluated(env, s, op, issued, sc);
    GrantedScopes(env, s, op);
    GrantedTrimmed(s.policy, ActingRoles(env, s, op).value);
    ScopesForActionsExact(s.policy, ActingRoles(env, s, op).value, op.req.audience, op.req.actions, sc);
  }

  /** Every scope in a token requested for an audience begins with that audience and a colon. */
  lemma TokensAudienceConfined(env: Env, s: State, op: Op, issued: Issued, sc: string)
    requires Shaped(s) && Trimmed(s.policy) && AsksForToken(op) && TokenTTL(env, op) > 0
    requires IssuedBy(env, s, op) == Ok(issued) && sc in issued.claims.scopes
    ensures op.req.audience + ":" <= sc
  {
    hide IssuedBy, ScopesForActions, ActingRoles, GrantOf, Shaped;
    ClaimsWithinEvaluated(env, s, op, issued, sc);
    AudienceConfined(s.policy, ActingRoles(env, s, op).value, op.req.audience, op.req.actions, sc);
  }

  lemma HeldByMember(p: Policy, creator: Principal, key: APIKey, sc: string)
    requires Trimmed(p) && HeldBy(key, p, creator) && sc in SliceSet(key.scopes)
    ensures sc in ScopeSet(p, creator.roles)
  {
    hide Granted, TrimSpace;
    GrantedTrimmed(p, creator.roles);
    var x :| x in key.scopes && !Blank(x) && TrimSpace(x) == sc;
    assert x in Elements(key.scopes);
    var y :| y in ScopesForRoles(p, creator.roles) && !Blank(y) && TrimSpace(y) == x;
    TrimIdempotent(y);
  }

  /** A token signed with a key: the key is stored, and each claimed scope is the key's, held by its
      principal now, and asked for. */
  lemma KeyToken(env: Env, s: State, op: Op, issued: Issued)
    requires Shaped(s) && Trimmed(s.policy) && op.TokenForKey? && env.internalTTL > 0 && IssuedBy(env, s, op) == Ok(issued)
    ensures var h := HashAPIKey(env, op.token);
      && h in s.apiKeys && s.apiKeys[h].principalID in s.principals
      && forall sc :: sc in issued.claims.scopes ==>
           && sc in SliceSet(s.apiKeys[h].scopes)
           && sc in ScopeSet(s.policy, s.principals[s.apiKeys[h].principalID].roles) && sc in Requested(op.req.audience, op.req.actions)
  {
    hide Requested, IssuedBy;
    var h := HashAPIKey(env, op.token);
    KeyScopes(env, s, op.token, op.req, op.picked);
    assert GrantOf(env, s, op).1.Ok? by { IssuedGranted(env, s, op); }
    var roles := s.principals[s.apiKeys[h].principalID].roles;
    GrantedTrimmed(s.policy, roles);
    forall sc | sc in issued.claims.scopes
      ensures sc in SliceSet(s.apiKeys[h].scopes) && sc in ScopeSet(s.policy, roles) && sc in Requested(op.req.audience, op.req.actions)
    {
      ClaimsWithinEvaluated(env, s, op, issued, sc);
      ScopesForActionsExact(s.policy, roles, op.req.audience, op.req.actions, sc);
    }
  }

  lemma IssuedGranted(env: Env, s: State, op: Op)
    requires AsksForToken(op) && IssuedBy(env, s, op).Ok?
    ensures GrantOf(env, s, op).1.Ok?
  {
    hide GrantOf, Issue;
  }

  /** Privilege never grows through keys. A token signed with an API, device or service-account key
      carries only scopes that the creator of that very key held when the call that stored it made it,
      that the key's own principal holds now, and that the request asks for (or the audience default). */
  lemma PrivilegeNeverGrows(env: Env, run: Run, i: nat, issued: Issued) returns (j: nat)
    requires FromEmpty(env, run) && TrimmedPolicies(run.ops) && i < |run.ops| && run.ops[i].TokenForKey? && env.internalTTL > 0
    requires run.effects[i].issued == Some(issued)
    ensures var h := HashAPIKey(env, run.ops[i].token); h in run.states[i].apiKeys && run.states[i].apiKeys[h].principalID in run.states[i].principals
    ensures j < i && MadeAt(env, run, j, HashAPIKey(env, run.ops[i].token), run.states[i].apiKeys[HashAPIKey(env, run.ops[i].token)])
    ensures forall sc :: sc in issued.claims.scopes ==>
      && sc in ScopeSet(run.states[j].policy, run.effects[j].creator.value.roles)
      && sc in ScopeSet(run.states[i].policy, run.states[i].principals[run.states[i].apiKeys[HashAPIKey(env, run.ops[i].token)].principalID].roles)
      && sc in Requested(run.ops[i].req.audience, run.ops[i].req.actions)
  {
    var h := HashAPIKey(env, run.ops[i].token);
    ShapedAt(env, run, i);
    PolicyAlwaysTrimmed(env, run, i);
    TokenOfCall(env, run, i, issued);
    KeyToken(env, run.states[i], run.ops[i], issued);
    j := KeyOrigin(env, run, i, h);
    PolicyAlwaysTrimmed(env, run, j);
    forall sc | sc in issued.claims.scopes ensures sc in ScopeSet(run.states[j].policy, run.effects[j].creator.value.roles) {
      HeldByMember(run.states[j].policy, run.effects[j].creator.value, run.states[i].apiKeys[h], sc);
    }
  }

  lemma TokenOfCall(env: Env, run: Run, i: nat, issued: Issued)
    requires IsRun(env, run) && i < |run.ops| && run.effects[i].issued == Some(issued)
    ensures AsksForToken(run.ops[i]) && IssuedBy(env, run.states[i], run.ops[i]) == Ok(issued)
  {
    hide GrantedBy, SignedIn, NewKey, Creator, ApprovedCode, ConsumedCode, IssuedBy, Apply;
    assert Linked(env, run, i);
  }

  lemma ShapedAt(env: Env, run: Run, i: nat)
    requires FromEmpty(env, run) && i < |run.ops|
    ensures Shaped(run.states[i])
  {
    hide StepWithin, Linked;
    EmptyShaped(env, CleanIds);
    StepAt(env, CleanIds, run, i);
  }
}
