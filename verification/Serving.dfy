/** The service object serving calls: every sequence of calls on it is a run of the model, so the
    theorems about runs are theorems about the object. */
module Serving {
  import opened Iam
  import opened Runs
  import opened Services

  /** The same call, up to the choices that walks over Go maps made. */
  ghost predicate SameCall(op: Op, done: Op) {
    match op
    case ToTenant(id, tenantID, teamID, now, source, after, _) =>
      done.ToTenant? && done == ToTenant(id, tenantID, teamID, now, source, after, done.picked)
    case DropKey(id, keyID, now, source, _) => done.DropKey? && done == DropKey(id, keyID, now, source, done.picked)
    case UseKey(token, now, _) => done.UseKey? && done == UseKey(token, now, done.picked)
    case TokenForKey(token, req, _) => done.TokenForKey? && done == TokenForKey(token, req, done.picked)
    case ApproveDevice(id, userCode, now, source, _) => done.ApproveDevice? && done == ApproveDevice(id, userCode, now, source, done.picked)
    case _ => done == op
  }

  predicate ActsInSession(op: Op) {
    op.ToTenant? || op.ToTeam? || op.Admin? || op.ApproveDevice?
  }

  predicate ManagesKeys(op: Op) {
    op.MakeKey? || op.MakeServiceKey? || op.DropAccount? || op.DropKey?
  }

  method ServeInSession(service: Service, op: Op) returns (ghost done: Op)
    requires ActsInSession(op)
    modifies service.store
    ensures SameCall(op, done) && service.View() == Apply(service.env, old(service.View()), done)
  {
    hide ValidateSession, Service.View;
    done := op;
    match op {
      case ToTenant(id, tenantID, teamID, now, source, after, _) =>
        var _, picked := service.SwitchTenant(id, tenantID, teamID, now, source, after);
        done := ToTenant(id, tenantID, teamID, now, source, after, picked);
      case ToTeam(id, teamID, now, source, after) => var _ := service.SwitchTeam(id, teamID, now, source, after);
      case Admin(action, id, principalID, now, source) => var _ := service.Administer(action, id, principalID, now, source);
      case ApproveDevice(id, userCode, now, source, _) =>
        var _, picked := service.ApproveDeviceAuth(id, userCode, now, source);
        done := ApproveDevice(id, userCode, now, source, picked);
    }
  }

  method ServeKeys(service: Service, op: Op) returns (ghost done: Op)
    requires ManagesKeys(op)
    modifies service.store
    ensures SameCall(op, done) && service.View() == Apply(service.env, old(service.View()), done)
  {
    hide ValidateSession;
    done := op;
    match op {
      case MakeKey(id, name, scopes, expiresAt, now, source, key) => var _ := service.CreateAPIKey(id, name, scopes, expiresAt, now, source, key);
      case MakeServiceKey(id, name, scopes, expiresAt, now, source, key) =>
        var _ := service.CreateServiceAccountToken(id, name, scopes, expiresAt, now, source, key);
      case DropAccount(id, accountID, now, source) => var _ := service.DisableServiceAccount(id, accountID, now, source);
      case DropKey(id, keyID, now, source, _) =>
        var _, picked := service.RevokeAPIKey(id, keyID, now, source);
        done := DropKey(id, keyID, now, source, picked);
    }
  }

  method ServeToken(service: Service, op: Op) returns (ghost done: Op)
    requires AsksForToken(op)
    modifies service.store
    ensures SameCall(op, done) && service.View() == Apply(service.env, old(service.View()), done)
  {
    hide ValidateAPIKey, GrantAgent, SignGranted, Service.View;
    done := op;
    match op {
      case TokenForSession(id, req, source) => var _ := service.SignForSession(id, req, source);
      case TokenForKey(token, req, _) =>
        var _, picked := service.SignForAPIKey(token, req);
        done := TokenForKey(token, req, picked);
      case TokenForClient(claims, req) => var _ := service.SignForClient(claims, req);
      case Delegate(id, runID, scopes, req, source, random) => var _ := service.DelegateAgent(id, runID, scopes, req, source, random);
    }
  }

  method ServeOther(service: Service, op: Op) returns (ghost done: Op)
    requires !ActsInSession(op) && !ManagesKeys(op) && !AsksForToken(op)
    modifies service, service.store
    ensures SameCall(op, done) && service.View() == Apply(service.env, old(service.View()), done)
  {
    hide SyncDirectoryUser, SyncSnapshot, RevokeDirectoryPrincipal, CreateSession, ValidateSession, ValidateAPIKey, ExchangeDeviceToken,
         StartDeviceAuth, Service.View;
    done := op;
    match op {
      case Sync(subject, source) => var _ := service.SyncDirectoryUser(source, subject);
      case SyncOne(snap) => var _ := service.SyncDirectorySnapshot(snap);
      case Revoke(p) => var _ := service.RevokeDirectoryPrincipal(p);
      case Login(id, now, random) => var _ := service.CreateSession(id, now, random);
      case Validate(id, now, source) => var _ := service.ValidateSession(id, now, source);
      case UseKey(token, now, _) =>
        var _, picked := service.ValidateAPIKey(token, now);
        done := UseKey(token, now, picked);
      case StartDevice(now, deviceCode, userCode) => service.StartDeviceAuth(now, deviceCode, userCode);
      case ExchangeDevice(code, now, key) => var _ := service.ExchangeDeviceToken(code, now, key);
      case SetPolicy(policy) => service.UpdatePolicy(policy);
      case SetRegistration(registration) => service.UpdateRegistrationPolicy(registration);
    }
  }

  /** One call on the object is one call of the model. */
  method Serve(service: Service, op: Op) returns (ghost done: Op)
    modifies service, service.store
    ensures SameCall(op, done) && service.View() == Apply(service.env, old(service.View()), done)
  {
    hide Apply, SameCall;
    if ActsInSession(op) {
      done := ServeInSession(service, op);
    } else if ManagesKeys(op) {
      done := ServeKeys(service, op);
    } else if AsksForToken(op) {
      done := ServeToken(service, op);
    } else {
      done := ServeOther(service, op);
    }
  }

  /** Serving calls one after the other is a run. */
  method ServeAll(service: Service, ops: seq<Op>) returns (ghost run: Run)
    modifies service, service.store
    ensures IsRun(service.env, run) && run.states[0] == old(service.View()) && run.states[|run.ops|] == service.View()
    ensures |run.ops| == |ops| && forall i :: 0 <= i < |ops| ==> SameCall(ops[i], run.ops[i])
  {
    hide Apply, EffectOf, SameCall, Service.View;
    run := Run([service.View()], [], []);
    for i := 0 to |ops|
      invariant IsRun(service.env, run) && run.states[0] == old(service.View()) && run.states[|run.ops|] == service.View()
      invariant |run.ops| == i && forall j :: 0 <= j < i ==> SameCall(ops[j], run.ops[j])
    {
      ghost var done := Serve(service, ops[i]);
      RunMore(service.env, run, done, service.View());
      run := Run(run.states + [service.View()], run.ops + [done], run.effects + [EffectOf(service.env, run.states[|run.ops|], done)]);
    }
  }
}
