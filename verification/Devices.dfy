/** The device authorization grant over whole runs (sections 3.1 to 3.5 of RFC 8628): a code's status
    only moves forward, it yields at most one key, in time, and for the principal who approved it. */
module Devices {
  import opened Text
  import opened Iam
  import opened Identity
  import opened Runs
  import opened Histories

  function Rank(status: DeviceStatus): nat {
    match status
    case DevicePending => 0
    case DeviceApproved => 1
    case DeviceConsumed => 2
  }

  /** Device codes are generated at random and do not repeat. */
  ghost predicate FreshCodes(run: Run) {
    |run.states| == |run.ops| + 1 && forall i :: 0 <= i < |run.ops| && run.ops[i].StartDevice? ==> run.ops[i].deviceCode !in run.states[i].deviceCodes
  }

  /** How one call may change a stored code. */
  predicate CodeMoves(e: Effect, c: string, a: DeviceCode, b: DeviceCode) {
    || b == a
    || (a.status.DevicePending? && e.approvedCode == Some((c, b.principalID)) && b == a.(status := DeviceApproved, principalID := b.principalID))
    || (a.status.DeviceApproved? && e.consumed == Some(c) && b == a.(status := DeviceConsumed))
  }

  lemma StartedMarked(env: Env, run: Run, i: nat)
    requires IsRun(env, run) && i < |run.ops|
    ensures run.effects[i].started == StartedCode(run.ops[i])
  {
    hide Apply, GrantedBy, SignedIn, NewKey, Creator, ApprovedCode, ConsumedCode, IssuedBy;
    assert Linked(env, run, i);
  }

  lemma CodeStep(env: Env, run: Run, i: nat, c: string)
    requires FromEmpty(env, run) && FreshCodes(run) && i < |run.ops|
    ensures var a, b := run.states[i].deviceCodes, run.states[i + 1].deviceCodes;
      && (c in a ==> c in b && CodeMoves(run.effects[i], c, a[c], b[c]))
      && (c in b && c !in a ==> b[c].status.DevicePending?)
  {
    hide Linked;
    EmptyShaped(env, CleanIds);
    StepAt(env, CleanIds, run, i);
    StartedMarked(env, run, i);
  }

  /** A code's status moves only forward through pending, approved, consumed; its expiry is fixed. */
  lemma {:induction false} StatusForward(env: Env, run: Run, j: nat, k: nat, c: string)
    requires FromEmpty(env, run) && FreshCodes(run) && j <= k <= |run.ops| && c in run.states[j].deviceCodes
    ensures c in run.states[k].deviceCodes
    ensures var a, b := run.states[j].deviceCodes[c], run.states[k].deviceCodes[c];
      Rank(a.status) <= Rank(b.status) && a.expiresAt == b.expiresAt && a.userCode == b.userCode
    decreases k
  {
    hide FreshCodes, Linked;
    if j < k {
      StatusForward(env, run, j, k - 1, c);
      CodeStep(env, run, k - 1, c);
    }
  }

  /** An exchange finds its code approved and unexpired, and leaves it consumed; its key is for the
      principal that the code records. */
  lemma Exchanged(env: Env, run: Run, i: nat, c: string)
    requires FromEmpty(env, run) && i < |run.ops| && run.effects[i].consumed == Some(c)
    ensures run.ops[i].ExchangeDevice?
    ensures var s, t := run.states[i], run.states[i + 1];
      && c in s.deviceCodes && s.deviceCodes[c].status.DeviceApproved? && !Expired(s.deviceCodes[c].expiresAt, run.ops[i].now)
      && c in t.deviceCodes && t.deviceCodes[c].status.DeviceConsumed?
      && run.effects[i].made.Some? && run.effects[i].made.value.principalID == s.deviceCodes[c].principalID
  {
    hide Shaped, StepWithin;
    EmptyShaped(env, CleanIds);
    StepAt(env, CleanIds, run, i);
    assert Linked(env, run, i);
    if run.ops[i].ExchangeDevice? { ExchangeFound(env, run.states[i], run.ops[i].rawCode, run.ops[i].now, run.ops[i].key); }
  }

  /** A device code is exchanged for a key at most once, and never at or after its expiry. */
  lemma OneKeyPerCode(env: Env, run: Run, i: nat, j: nat, c: string)
    requires FromEmpty(env, run) && FreshCodes(run) && i < j < |run.ops| && run.effects[i].consumed == Some(c)
    ensures run.effects[j].consumed != Some(c)
    ensures run.ops[i].ExchangeDevice? && c in run.states[i].deviceCodes && !Expired(run.states[i].deviceCodes[c].expiresAt, run.ops[i].now)
  {
    hide Linked;
    Exchanged(env, run, i, c);
    StatusForward(env, run, i + 1, j, c);
    if run.effects[j].consumed == Some(c) { Exchanged(env, run, j, c); }
  }

  /** A code that has left the pending state was approved, earlier in the run, for the principal it
      records. */
  lemma {:induction false} ApprovedEarlier(env: Env, run: Run, k: nat, c: string) returns (a: nat)
    requires FromEmpty(env, run) && FreshCodes(run) && k <= |run.ops| && c in run.states[k].deviceCodes
    requires !run.states[k].deviceCodes[c].status.DevicePending?
    ensures a < k && run.effects[a].approvedCode == Some((c, run.states[k].deviceCodes[c].principalID))
  {
    hide FreshCodes, Linked;
    CodeStep(env, run, k - 1, c);
    if run.effects[k - 1].approvedCode == Some((c, run.states[k].deviceCodes[c].principalID)) {
      a := k - 1;
    } else {
      a := ApprovedEarlier(env, run, k - 1, c);
    }
  }

  /** An approval is a validated session's, for its own principal. */
  lemma ApprovalIsOwn(env: Env, run: Run, i: nat, c: string, principalID: string)
    requires IsRun(env, run) && i < |run.ops| && run.effects[i].approvedCode == Some((c, principalID))
    ensures run.ops[i].ApproveDevice? && run.ops[i].picked == c
    ensures Caller(ValidateSession(env, run.states[i], run.ops[i].sessionID, run.ops[i].now, run.ops[i].source)).Some?
    ensures Caller(ValidateSession(env, run.states[i], run.ops[i].sessionID, run.ops[i].now, run.ops[i].source)).value.id == principalID
  {
    hide ValidateSession, GrantedBy, NewKey, ConsumedCode, IssuedBy, Apply;
    assert Linked(env, run, i);
  }

  /** The key from a device code belongs to the principal whose validated session approved the code. */
  lemma KeyOfApprover(env: Env, run: Run, i: nat, c: string) returns (a: nat)
    requires FromEmpty(env, run) && FreshCodes(run) && i < |run.ops| && run.effects[i].consumed == Some(c)
    ensures a < i && run.ops[a].ApproveDevice? && run.ops[a].picked == c && run.effects[i].made.Some?
    ensures Caller(ValidateSession(env, run.states[a], run.ops[a].sessionID, run.ops[a].now, run.ops[a].source)).Some?
    ensures Caller(ValidateSession(env, run.states[a], run.ops[a].sessionID, run.ops[a].now, run.ops[a].source)).value.id
         == run.effects[i].made.value.principalID
  {
    hide Linked, ValidateSession;
    Exchanged(env, run, i, c);
    a := ApprovedEarlier(env, run, i, c);
    ApprovalIsOwn(env, run, a, c, run.effects[i].made.value.principalID);
  }
}
