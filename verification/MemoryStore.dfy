/** The in-memory store: one map per kind of record, changed in place. */
module MemoryStores {
  import opened Text
  import opened Calendar
  import opened Policies
  import opened Iam

  class MemoryStore {
    var tenants: map<string, Tenant>
    var principals: map<string, Principal>
    var sessions: map<string, Session>
    var apiKeys: map<string, APIKey>
    var deviceCodes: map<string, DeviceCode>
    var accounts: map<string, Account>
    var agentRuns: map<string, AgentRun>
    var audits: seq<AuditEvent>

    /** The identity state, given the policy and registration policy that the service holds. */
    ghost function State(policy: Policy, registration: Registration): Iam.State
      reads this
    {
      Iam.State(tenants, principals, sessions, apiKeys, deviceCodes, accounts, agentRuns, audits, policy, registration)
    }

    constructor ()
      ensures State(Policy(map[]), Open) == EMPTY_STORE
    {
      tenants, principals, sessions, apiKeys := map[], map[], map[], map[];
      deviceCodes, accounts, agentRuns, audits := map[], map[], map[], [];
    }

    method UpsertTenant(tenant: Tenant)
      modifies `tenants
      ensures tenants == old(tenants)[tenant.id := tenant]
    {
      tenants := tenants[tenant.id := tenant];
    }

    method UpsertPrincipal(principal: Principal)
      modifies `principals
      ensures principals == old(principals)[principal.id := principal]
    {
      principals := principals[principal.id := principal];
    }

    method UpdatePrincipalStatus(id: string, status: Status) returns (ok: bool)
      modifies `principals
      ensures ok <==> id in old(principals)
      ensures principals == if ok then old(principals)[id := old(principals)[id].(status := status)] else old(principals)
    {
      ok := id in principals;
      if ok { principals := principals[id := principals[id].(status := status)]; }
    }

    /** The principals of an external user, in the arbitrary order of the map. */
    method ListPrincipalsByCasdoorUser(subject: string) returns (out: seq<Principal>)
      ensures forall p :: p in out <==> exists id :: id in principals && principals[id] == p && p.externalID != "" && p.externalID == subject
    {
      out := [];
      var todo := principals.Keys;
      while todo != {}
        invariant todo <= principals.Keys
        invariant forall p :: p in out ==> p.externalID != "" && p.externalID == subject
        invariant forall p :: p in out ==> exists id :: id in principals && principals[id] == p
        invariant forall id :: id in principals && id !in todo && principals[id].externalID != "" && principals[id].externalID == subject ==> principals[id] in out
        decreases todo
      {
        var id :| id in todo;
        todo := todo - {id};
        if principals[id].externalID != "" && principals[id].externalID == subject { out := out + [principals[id]]; }
      }
    }

    /** The external subjects of a tenant's users, sorted. */
    method ListDirectorySubjects(tenantID: string) returns (r: Result<seq<string>, Error>)
      ensures r == if tenantID == "" then Err(InvalidInput) else Ok(Sorted(
        set id | id in principals && principals[id].tenantID == tenantID && principals[id].externalID != "" && principals[id].kind.User? :: principals[id].externalID))
    {
      if tenantID == "" { return Err(InvalidInput); }
      var seen: set<string> := {};
      var todo := principals.Keys;
      while todo != {}
        invariant todo <= principals.Keys
        invariant seen == set id | id in principals && id !in todo && principals[id].tenantID == tenantID
                                   && principals[id].externalID != "" && principals[id].kind.User? :: principals[id].externalID
        decreases todo
      {
        var id :| id in todo;
        todo := todo - {id};
        if principals[id].tenantID == tenantID && principals[id].externalID != "" && principals[id].kind.User? {
          seen := seen + {principals[id].externalID};
        }
      }
      assert seen == set id | id in principals && principals[id].tenantID == tenantID && principals[id].externalID != ""
                              && principals[id].kind.User? :: principals[id].externalID;
      var out := SortedKeys(seen);
      r := Ok(out);
    }

    method PutSession(session: Session)
      modifies `sessions
      ensures sessions == old(sessions)[session.id := session]
    {
      sessions := sessions[session.id := session];
    }

    method UpdateSessionContext(id: string, principalID: string, tenantID: string, teamID: string) returns (ok: bool)
      modifies `sessions
      ensures ok <==> id in old(sessions)
      ensures sessions == if !ok then old(sessions) else
        old(sessions)[id := old(sessions)[id].(principalID := principalID, tenantID := tenantID, currentTeamID := teamID)]
    {
      ok := id in sessions;
      if ok { sessions := sessions[id := sessions[id].(principalID := principalID, tenantID := tenantID, currentTeamID := teamID)]; }
    }

    method DeleteSession(id: string)
      modifies `sessions
      ensures sessions == old(sessions) - {id}
    {
      sessions := sessions - {id};
    }

    method DeleteSessionsByPrincipal(principalID: string)
      modifies `sessions
      ensures sessions == WithoutSessionsOf(old(sessions), principalID)
    {
      var todo := sessions.Keys;
      while todo != {}
        invariant todo <= sessions.Keys
        invariant forall k :: k in sessions <==> k in old(sessions) && (k in todo || old(sessions)[k].principalID != principalID)
        invariant forall k :: k in sessions ==> sessions[k] == old(sessions)[k]
        decreases todo
      {
        var k :| k in todo;
        todo := todo - {k};
        if sessions[k].principalID == principalID { sessions := sessions - {k}; }
      }
    }

    method PutServiceAccount(account: Account)
      modifies `accounts
      ensures accounts == old(accounts)[account.id := account]
    {
      accounts := accounts[account.id := account];
    }

    method DisableServiceAccount(id: string, tenantID: string) returns (ok: bool)
      modifies `accounts, `principals
      ensures ok <==> id in old(accounts) && old(accounts)[id].tenantID == tenantID
      ensures accounts == if ok then old(accounts)[id := old(accounts)[id].(status := Disabled)] else old(accounts)
      ensures principals == if ok && id in old(principals) && old(principals)[id].tenantID == tenantID
                            then old(principals)[id := old(principals)[id].(status := Disabled)] else old(principals)
    {
      ok := id in accounts && accounts[id].tenantID == tenantID;
      if ok {
        accounts := accounts[id := accounts[id].(status := Disabled)];
        if id in principals && principals[id].tenantID == tenantID {
          principals := principals[id := principals[id].(status := Disabled)];
        }
      }
    }

    method PutAPIKey(key: APIKey)
      modifies `apiKeys
      ensures apiKeys == old(apiKeys)[key.keyHash := key]
    {
      apiKeys := apiKeys[key.keyHash := key];
    }

    /** Revokes the first key the walk meets with this id and holder. */
    method RevokeAPIKey(keyID: string, principalID: string) returns (ok: bool, ghost picked: string)
      modifies `apiKeys
      ensures ok ==> picked in old(apiKeys) && old(apiKeys)[picked].id == keyID && old(apiKeys)[picked].principalID == principalID
      ensures !ok ==> forall h :: h in old(apiKeys) ==> !(old(apiKeys)[h].id == keyID && old(apiKeys)[h].principalID == principalID)
      ensures apiKeys == if ok then old(apiKeys)[picked := old(apiKeys)[picked].(status := KeyRevoked)] else old(apiKeys)
    {
      var todo := apiKeys.Keys;
      while todo != {}
        invariant todo <= apiKeys.Keys && apiKeys == old(apiKeys)
        invariant forall h :: h in apiKeys && h !in todo ==> !(apiKeys[h].id == keyID && apiKeys[h].principalID == principalID)
        decreases todo
      {
        var h :| h in todo;
        todo := todo - {h};
        if apiKeys[h].id == keyID && apiKeys[h].principalID == principalID {
          apiKeys := apiKeys[h := apiKeys[h].(status := KeyRevoked)];
          return true, h;
        }
      }
      return false, "";
    }

    method TouchAPIKeyLastUsed(keyID: string, now: Time) returns (ok: bool, ghost picked: string)
      modifies `apiKeys
      ensures ok ==> picked in old(apiKeys) && old(apiKeys)[picked].id == keyID
      ensures !ok ==> forall h :: h in old(apiKeys) ==> old(apiKeys)[h].id != keyID
      ensures apiKeys == if ok then old(apiKeys)[picked := old(apiKeys)[picked].(lastUsedAt := now)] else old(apiKeys)
    {
      var todo := apiKeys.Keys;
      while todo != {}
        invariant todo <= apiKeys.Keys && apiKeys == old(apiKeys)
        invariant forall h :: h in apiKeys && h !in todo ==> apiKeys[h].id != keyID
        decreases todo
      {
        var h :| h in todo;
        todo := todo - {h};
        if apiKeys[h].id == keyID {
          apiKeys := apiKeys[h := apiKeys[h].(lastUsedAt := now)];
          return true, h;
        }
      }
      return false, "";
    }

    method PutAgentRun(run: AgentRun)
      modifies `agentRuns
      ensures agentRuns == old(agentRuns)[run.id := run]
    {
      agentRuns := agentRuns[run.id := run];
    }

    method PutDeviceCode(code: DeviceCode)
      modifies `deviceCodes
      ensures deviceCodes == old(deviceCodes)[code.deviceCode := code]
    {
      deviceCodes := deviceCodes[code.deviceCode := code];
    }

    method GetDeviceCodeByUserCode(userCode: string) returns (r: Option<DeviceCode>, ghost picked: string)
      ensures r.Some? ==> picked in deviceCodes && deviceCodes[picked].userCode == userCode && r.value == deviceCodes[picked]
      ensures r.None? ==> forall c :: c in deviceCodes ==> deviceCodes[c].userCode != userCode
    {
      var todo := deviceCodes.Keys;
      while todo != {}
        invariant todo <= deviceCodes.Keys
        invariant forall c :: c in deviceCodes && c !in todo ==> deviceCodes[c].userCode != userCode
        decreases todo
      {
        var c :| c in todo;
        todo := todo - {c};
        if deviceCodes[c].userCode == userCode { return Some(deviceCodes[c]), c; }
      }
      return None, "";
    }

    method UpdateDeviceCode(code: DeviceCode) returns (ok: bool)
      modifies `deviceCodes
      ensures ok <==> code.deviceCode in old(deviceCodes)
      ensures deviceCodes == if ok then old(deviceCodes)[code.deviceCode := code] else old(deviceCodes)
    {
      ok := code.deviceCode in deviceCodes;
      if ok { deviceCodes := deviceCodes[code.deviceCode := code]; }
    }

    method AppendAudit(event: AuditEvent)
      modifies `audits
      ensures audits == old(audits) + [event]
    {
      audits := audits + [event];
    }
  }
}
