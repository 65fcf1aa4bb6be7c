/** Whom and what an issued token names, for each call that issues one, read off the stored records. */
module Tokens {
  import opened Text
  import opened Calendar
  import opened Policies
  import opened Iam
  import opened Identity
  import opened Access

  function KindText(kind: Kind): string {
    if kind == User then "user" else if kind == ServiceAccount then "service_account" else if kind == Agent then "agent"
    else match kind case OtherKind(text) => text case _ => ""
  }

  /** The token's roles are the canonical keys of the principal's. */
  ghost predicate RolesNamed(p: Principal, claims: Jwt.Claims) {
    forall key :: key in claims.roles <==> exists i :: 0 <= i < |p.roles| && NormalizeRoleKey(p.roles[i].key) == Some(key)
  }

  /** The token names this principal, in this tenant, on this session, and answers this request. */
  ghost predicate Names(env: Env, p: Principal, session: Session, source: string, req: TokenRequest, claims: Jwt.Claims) {
    && claims.tenantID == TrimSpace(session.tenantID)
    && claims.principalID == claims.subject == TrimSpace(p.id) && claims.principalType == TrimSpace(KindText(p.kind))
    && claims.email == TrimSpace(p.email) && claims.name == TrimSpace(p.displayName) && claims.handle == TrimSpace(p.username)
    && RolesNamed(p, claims)
    && claims.sessionID == TrimSpace(session.id) && claims.source == source
    && claims.authTime == (if session.authTime == ZERO_TIME then 0 else session.authTime / 1_000_000_000)
    && claims.issuer == env.signer.issuer && claims.audience == TrimSpace(req.audience) && claims.resource == req.resource
    && claims.orgID == "" && claims.policyVersion == TrimSpace(env.policyVersion)
    && claims.issuedAt == claims.notBefore == req.now / 1_000_000_000
    && claims.typ == "internal_access" && claims.version == 1
  }

  lemma KnownRolesTrimmed(role: string)
    requires NormalizeRoleKey(role).Some?
    ensures TrimSpace(NormalizeRoleKey(role).value) == NormalizeRoleKey(role).value != ""
  {
    hide TrimSpace;
    TrimIdempotent(role);
    var key := NormalizeRoleKey(role).value;
    if key != TrimSpace(role) {
      assert key != "" && !IsSpace(key[0]) && !IsSpace(key[|key| - 1]);
      TrimsItself(key);
    }
  }

  lemma {:induction false} RoleKeysAre(roles: seq<RoleGrant>, key: string)
    ensures key in Jwt.CleanStrings(RoleKeys(roles)) <==> exists i :: 0 <= i < |roles| && NormalizeRoleKey(roles[i].key) == Some(key)
    decreases |roles|
  {
    hide TrimSpace, NormalizeRoleKey;
    if roles != [] {
      var one := NormalizeRoleKey(roles[0].key);
      RoleKeysAre(roles[1..], key);
      var rest := RoleKeys(roles[1..]);
      if one.Some? {
        KnownRolesTrimmed(roles[0].key);
        assert ([one.value] + rest)[1..] == rest;
        assert Jwt.CleanStrings([one.value] + rest) == [one.value] + Jwt.CleanStrings(rest);
      } else {
        assert [] + rest == rest;
      }
      assert (exists i :: 0 <= i < |roles| && NormalizeRoleKey(roles[i].key) == Some(key)) <==>
             one == Some(key) || exists i :: 0 <= i < |roles[1..]| && NormalizeRoleKey(roles[1..][i].key) == Some(key) by {
        if i :| 0 <= i < |roles| && NormalizeRoleKey(roles[i].key) == Some(key) { if i > 0 { assert roles[1..][i - 1] == roles[i]; } }
      }
    }
  }

  lemma IssuedNames(env: Env, s: State, g: Grant, req: TokenRequest, issued: Issued)
    requires Issue(env, s, g, req).1 == Ok(issued)
    ensures Names(env, g.principal, g.session, TrimSpace(g.source), req, issued.claims)
    ensures issued.claims.actor == g.actor && issued.claims.delegation == g.delegation
    ensures g.ttl > 0 ==> issued.claims.expiresAt == (req.now + g.ttl) / 1_000_000_000
  {
    hide TrimSpace, RoleKeys, NormalizeRoleKey, Jwt.CleanStrings, Jwt.SignClaims, MonthOf;
    assert TrimSpace("") == "" by { NothingToTrim(); }
    forall key ensures key in issued.claims.roles <==> exists i :: 0 <= i < |g.principal.roles| && NormalizeRoleKey(g.principal.roles[i].key) == Some(key) {
      RoleKeysAre(g.principal.roles, key);
    }
  }

  lemma NothingToTrim()
    ensures TrimSpace("") == ""
  {
  }

  /** A token signed for a session names the validated principal, in the session's tenant, and nobody
      else. */
  lemma SessionTokenNames(env: Env, checked: Validated, req: TokenRequest, issued: Issued)
    requires SignGranted(env, GrantSession(env, checked, req), req).1 == Ok(issued)
    ensures checked.1.Ok? && Names(env, checked.1.value.principal, checked.1.value.session, "web_session", req, issued.claims)
    ensures issued.claims.actor.None? && issued.claims.delegation.None?
    ensures env.internalTTL > 0 ==> issued.claims.expiresAt == (req.now + env.internalTTL) / 1_000_000_000
  {
    hide Names, Issue, ScopesForActions, TrimSpace;
    var (s, r) := GrantSession(env, checked, req);
    IssuedNames(env, s, r.value, req, issued);
    TrimsItself("web_session");
  }

  /** A token signed with a key names the key's holder, in the key's tenant, and nobody else. */
  lemma KeyTokenNames(env: Env, s: State, token: string, req: TokenRequest, picked: string, issued: Issued)
    requires SignGranted(env, GrantKey(env, ValidateAPIKey(env, s, token, req.now, picked), req), req).1 == Ok(issued)
    ensures var h := HashAPIKey(env, token);
      && h in s.apiKeys && s.apiKeys[h].principalID in s.principals
      && exists session: Session ::
           && session.tenantID == s.apiKeys[h].tenantID && session.id == s.apiKeys[h].id && session.authTime == s.apiKeys[h].createdAt
           && Names(env, s.principals[s.apiKeys[h].principalID], session, "api_key", req, issued.claims)
    ensures issued.claims.actor.None? && issued.claims.delegation.None?
    ensures env.internalTTL > 0 ==> issued.claims.expiresAt == (req.now + env.internalTTL) / 1_000_000_000
  {
    hide Names, Issue, ScopesForActions, IntersectScopes, TrimSpace, HashAPIKey;
    var (t, r) := GrantKey(env, ValidateAPIKey(env, s, token, req.now, picked), req);
    IssuedNames(env, t, r.value, req, issued);
    TrimsItself("api_key");
  }

  /** A client-credentials token names the projected service account, in the client's tenant. */
  lemma ClientTokenNames(env: Env, s: State, claims: ClientClaims, req: TokenRequest, issued: Issued)
    requires SignGranted(env, GrantClient(env, s, claims, req), req).1 == Ok(issued)
    ensures exists p: Principal, session: Session ::
      && p.id == "svc_" + env.digest(Encode([TrimSpace(claims.tenantID), claims.subject])) && p.kind == ServiceAccount
      && p.roles == [RoleGrant("tenant.admin", "", "")] && p.email == ""
      && session.tenantID == TrimSpace(claims.tenantID) && session.id == "client_credentials:" + claims.subject && session.authTime == req.now
      && Names(env, p, session, "service_token", req, issued.claims)
    ensures issued.claims.actor.None? && issued.claims.delegation.None?
    ensures env.internalTTL > 0 ==> issued.claims.expiresAt == (req.now + env.internalTTL) / 1_000_000_000
  {
    hide Names, Issue, ScopesForActions, IntersectScopes, TrimSpace, Encode;
    var (t, r) := GrantClient(env, s, claims, req);
    IssuedNames(env, t, r.value, req, issued);
    TrimsItself("service_token");
    assert "svc" + "_" == "svc_";
  }

  /** A delegated token names the agent of the run, in the caller's session, and says on whose behalf: the
      validated caller is its actor and the one it stands for. */
  lemma AgentTokenNames(env: Env, checked: Validated, runID: string, scopes: seq<string>, req: TokenRequest, random: string, issued: Issued)
    requires SignGranted(env, GrantAgent(env, checked, runID, scopes, req, random), req).1 == Ok(issued)
    ensures checked.1.Ok?
    ensures var caller, session := checked.1.value.principal, checked.1.value.session;
      var run := if TrimSpace(runID) == "" then "run_" + random else TrimSpace(runID);
      && (exists agent: Principal :: agent.id == "agent_" + run && agent.kind == Agent && agent.roles == [RoleGrant("app.saker.runner", "", "")]
                                     && Names(env, agent, session, "agent_delegation", req, issued.claims))
      && issued.claims.actor == Some(Jwt.ActorRef(KindText(caller.kind), caller.id))
      && issued.claims.delegation == Some(Jwt.DelegationRef(caller.id, session.id, run))
      && (env.agentTTL > 0 ==> issued.claims.expiresAt == (req.now + env.agentTTL) / 1_000_000_000)
  {
    hide Names, Issue, ScopesForActions, IntersectScopes, TrimSpace;
    var (t, r) := GrantAgent(env, checked, runID, scopes, req, random);
    IssuedNames(env, t, r.value, req, issued);
    TrimsItself("agent_delegation");
  }

  /** The agent and its run are stored, active, for the caller, in the caller's tenant. */
  lemma DelegationStored(env: Env, checked: Validated, runID: string, scopes: seq<string>, req: TokenRequest, random: string)
    requires checked.1.Ok? && GrantAgent(env, checked, runID, scopes, req, random).1.Ok?
    ensures var s, t, caller := checked.0, GrantAgent(env, checked, runID, scopes, req, random).0, checked.1.value.principal;
      var run := if TrimSpace(runID) == "" then "run_" + random else TrimSpace(runID);
      var id := "agent_" + run;
      && id in t.principals && t.principals == s.principals[id := t.principals[id]]
      && t.principals[id].id == id && t.principals[id].tenantID == caller.tenantID && t.principals[id].kind == Agent && t.principals[id].status == Active
      && t.principals[id].roles == [RoleGrant("app.saker.runner", "", "")] && t.principals[id].externalID == ""
      && run in t.agentRuns && t.agentRuns == s.agentRuns[run := t.agentRuns[run]]
      && t.agentRuns[run].actorID == caller.id && t.agentRuns[run].agentID == id && t.agentRuns[run].tenantID == caller.tenantID
      && t.agentRuns[run].id == run && t.agentRuns[run].createdAt == req.now
      && t == s.(principals := t.principals, agentRuns := t.agentRuns)
  {
    hide ScopesForActions, IntersectScopes, TrimSpace;
  }

  lemma ClientSettled(env: Env, s: State, tenantID: string, claims: ClientClaims, now: Time)
    ensures var t := WithClient(env, s, tenantID, claims, now);
      var id := "svc_" + env.digest(Encode([tenantID, claims.subject]));
      var name := if claims.preferredName == "" then claims.subject else claims.preferredName;
      && tenantID in t.tenants
      && t.tenants == (if tenantID in s.tenants then s.tenants else s.tenants[tenantID := t.tenants[tenantID]])
      && (tenantID !in s.tenants ==> t.tenants[tenantID].status == Active && t.tenants[tenantID].orgName == "" && t.tenants[tenantID].id == tenantID)
      && id in t.principals && t.principals == s.principals[id := t.principals[id]]
      && t.principals[id].id == id && t.principals[id].tenantID == tenantID && t.principals[id].externalID == claims.subject
      && t.principals[id].kind == ServiceAccount && t.principals[id].status == Active && t.principals[id].username == name
      && t.principals[id].displayName == (if TrimSpace(claims.name) != "" then claims.name else if TrimSpace(name) != "" then name else "")
      && t.principals[id].roles == [RoleGrant("tenant.admin", "", "")]
      && id in t.accounts && t.accounts == s.accounts[id := t.accounts[id]]
      && t.accounts[id].id == id && t.accounts[id].tenantID == tenantID && t.accounts[id].name == t.principals[id].displayName
      && t.accounts[id].status == Active && t.accounts[id].createdBy == "casdoor" && t.accounts[id].createdAt == now
      && t == s.(tenants := t.tenants, principals := t.principals, accounts := t.accounts)
  {
    hide TrimSpace, Encode;
    assert "svc" + "_" == "svc_";
  }

  /** A client without a tenant, without scopes, or of a disabled tenant is refused, and nothing is stored;
      any other has its account settled, whether or not it is granted a token. */
  lemma ClientRefused(env: Env, s: State, claims: ClientClaims, req: TokenRequest)
    ensures var (t, r) := GrantClient(env, s, claims, req);
      var tenantID := TrimSpace(claims.tenantID);
      if tenantID == "" then r == Err(Unauthorized) && t == s
      else if claims.scopes == [] then r == Err(Forbidden) && t == s
      else if tenantID in s.tenants && s.tenants[tenantID].status == Status.Disabled then r == Err(AccountDisabled) && t == s
      else t == WithClient(env, s, tenantID, claims, req.now).(audits := t.audits)
  {
    hide ScopesForActions, IntersectScopes, TrimSpace, ClientPrincipal;
  }

  /** Signing what was granted: the token, recorded against its principal; or the refusal to sign it, without
      effect. */
  lemma IssueExactly(env: Env, s: State, g: Grant, req: TokenRequest)
    ensures var (t, r) := SignGranted(env, (s, Ok(g)), req);
      && (r.Err? ==> t == s && r.error.SignFailed?)
      && (r.Ok? ==> t == s.(audits := s.audits + [AuditEvent(g.principal.tenantID, g.principal.kind, g.principal.id, "internal_jwt.sign",
                                                             req.resource, "allow", r.value.claims.jwtID, g.actor)]))
  {
    hide Jwt.Sign, TokenInput;
  }

  lemma RefusalStands(env: Env, s: State, e: Error, req: TokenRequest)
    ensures SignGranted(env, (s, Err(e)), req) == (s, Err(e))
  {
  }

  // ----- exactly which scopes are granted -----

  /** A scope that these roles carry and this request asks for. */
  predicate Due(p: Policy, roles: seq<RoleGrant>, req: TokenRequest, sc: string) {
    sc in ScopeSet(p, roles) && sc in Requested(req.audience, req.actions)
  }

  /** The refusal of a request is recorded against the principal it was made for, and changes nothing else. */
  predicate Denied(s: State, t: State, p: Principal, action: string, req: TokenRequest, actor: Option<Jwt.ActorRef>) {
    t == s.(audits := s.audits + [AuditEvent(p.tenantID, p.kind, p.id, action, req.resource, "deny", "", actor)])
  }

  /** A session is granted exactly the scopes that are due, and refused if there are none. */
  lemma SessionGrantExactly(env: Env, checked: Validated, req: TokenRequest)
    requires checked.1.Ok? && Trimmed(checked.0.policy)
    ensures var (t, r) := GrantSession(env, checked, req);
      var policy, roles := checked.0.policy, checked.1.value.principal.roles;
      && (r.Ok? ==> t == checked.0)
      && (r.Err? ==> r == Err(Forbidden) && Denied(checked.0, t, checked.1.value.principal, "internal_jwt.sign", req, None))
      && (r.Ok? <==> exists sc :: Due(policy, roles, req, sc))
      && (r.Ok? ==> forall sc :: sc in r.value.scopes <==> Due(policy, roles, req, sc))
  {
    hide ScopesForActions, Trimmed, ScopeSet, Requested;
    var policy, roles := checked.0.policy, checked.1.value.principal.roles;
    var scopes := ScopesForActions(policy, roles, req.audience, req.actions);
    forall sc ensures sc in scopes <==> Due(policy, roles, req, sc) { ScopesForActionsExact(policy, roles, req.audience, req.actions, sc); }
    if scopes != [] { assert scopes[0] in scopes; }
  }

  /** A key is granted exactly those of its own scopes that are due to its holder. */
  lemma KeyGrantExactly(env: Env, checked: ValidatedKey, req: TokenRequest)
    requires checked.1.Ok? && Trimmed(checked.0.policy)
    ensures var (t, r) := GrantKey(env, checked, req);
      var policy, v := checked.0.policy, checked.1.value;
      && (r.Ok? ==> t == checked.0)
      && (r.Err? ==> r == Err(Forbidden) && Denied(checked.0, t, v.principal, "internal_jwt.sign", req, None))
      && (r.Ok? <==> exists sc :: Among(v.key.scopes, sc) && Due(policy, v.principal.roles, req, sc))
      && (r.Ok? ==> forall sc :: sc in r.value.scopes <==> Among(v.key.scopes, sc) && Due(policy, v.principal.roles, req, sc))
  {
    hide ScopesForActions, Trimmed, ScopeSet, Requested, IntersectScopes, TrimSpace;
    var policy, v := checked.0.policy, checked.1.value;
    var due := ScopesForActions(policy, v.principal.roles, req.audience, req.actions);
    CommonExactly(policy, v.principal.roles, req, v.key.scopes);
    if IntersectScopes(v.key.scopes, due) != [] { assert IntersectScopes(v.key.scopes, due)[0] in IntersectScopes(v.key.scopes, due); }
  }

  lemma CommonExactly(policy: Policy, roles: seq<RoleGrant>, req: TokenRequest, listed: seq<string>)
    requires Trimmed(policy)
    ensures forall sc :: sc in IntersectScopes(listed, ScopesForActions(policy, roles, req.audience, req.actions)) <==>
      Among(listed, sc) && Due(policy, roles, req, sc)
  {
    hide ScopesForActions, Trimmed, ScopeSet, Requested, IntersectScopes, TrimSpace;
    forall sc ensures sc in IntersectScopes(listed, ScopesForActions(policy, roles, req.audience, req.actions)) <==> Among(listed, sc) && Due(policy, roles, req, sc) {
      IntersectIsCommon(listed, ScopesForActions(policy, roles, req.audience, req.actions), sc);
      ScopesForActionsExact(policy, roles, req.audience, req.actions, sc);
    }
  }

  /** A client is granted exactly those of its token's scopes that are due to a tenant administrator. */
  lemma ClientGrantExactly(env: Env, s: State, claims: ClientClaims, req: TokenRequest)
    requires Trimmed(s.policy) && TrimSpace(claims.tenantID) != "" && claims.scopes != []
    requires TrimSpace(claims.tenantID) in s.tenants ==> s.tenants[TrimSpace(claims.tenantID)].status != Status.Disabled
    ensures var r, roles := GrantClient(env, s, claims, req).1, [RoleGrant("tenant.admin", "", "")];
      && (r.Ok? <==> exists sc :: Among(claims.scopes, sc) && Due(s.policy, roles, req, sc))
      && (r.Ok? ==> forall sc :: sc in r.value.scopes <==> Among(claims.scopes, sc) && Due(s.policy, roles, req, sc))
      && (r.Err? ==> r == Err(Forbidden))
  {
    hide ScopesForActions, Trimmed, ScopeSet, Requested, IntersectScopes, TrimSpace, ServiceID;
    var roles := [RoleGrant("tenant.admin", "", "")];
    CommonExactly(s.policy, roles, req, claims.scopes);
    var common := IntersectScopes(claims.scopes, ScopesForActions(s.policy, roles, req.audience, req.actions));
    if common != [] { assert common[0] in common; }
  }

  /** A delegate is granted exactly what is due to the caller, or what of it the caller lists. */
  lemma AgentGrantExactly(env: Env, checked: Validated, runID: string, scopes: seq<string>, req: TokenRequest, random: string)
    requires checked.1.Ok? && Trimmed(checked.0.policy)
    ensures var (t, r) := GrantAgent(env, checked, runID, scopes, req, random);
      var policy, p, roles := checked.0.policy, checked.1.value.principal, checked.1.value.principal.roles;
      && (r.Err? ==> r == Err(Forbidden) && Denied(checked.0, t, p, "agent.delegate", req, Some(Jwt.ActorRef(KindText(p.kind), p.id))))
      && (r.Ok? <==> exists sc :: Due(policy, roles, req, sc) && (scopes == [] || sc in scopes))
      && (r.Ok? ==> forall sc :: sc in r.value.scopes <==> Due(policy, roles, req, sc) && (scopes == [] || sc in scopes))
  {
    hide ScopesForActions, Trimmed, ScopeSet, Requested, IntersectScopes, TrimSpace;
    var policy, roles := checked.0.policy, checked.1.value.principal.roles;
    var held := ScopesForActions(policy, roles, req.audience, req.actions);
    var wanted := if scopes == [] then held else scopes;
    EvaluatedTrimmed(policy, roles, req);
    forall sc ensures sc in IntersectScopes(held, wanted) <==> Due(policy, roles, req, sc) && (scopes == [] || sc in scopes) {
      IntersectIsCommon(held, wanted, sc);
      ScopesForActionsExact(policy, roles, req.audience, req.actions, sc);
      assert sc in Elements(held) <==> sc in held;
    }
    if IntersectScopes(held, wanted) != [] { assert IntersectScopes(held, wanted)[0] in IntersectScopes(held, wanted); }
  }

  lemma EvaluatedTrimmed(p: Policy, roles: seq<RoleGrant>, req: TokenRequest)
    requires Trimmed(p)
    ensures var held := ScopesForActions(p, roles, req.audience, req.actions);
      SliceSet(held) == Elements(held) && forall sc :: sc in held ==> TrimSpace(sc) == sc && sc != ""
  {
    hide Requested, ScopeSet;
    GrantedTrimmed(p, roles);
    var held := ScopesForActions(p, roles, req.audience, req.actions);
    forall v | v in held ensures TrimmedScope(v) { ScopesForActionsExact(p, roles, req.audience, req.actions, v); }
    SliceSetOfTrimmed(held);
  }
}
