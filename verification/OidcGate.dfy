/** The discovery gate: any number of callers, each of its steps interleaved with everyone else's,
    resolve one shared OIDC client through a gate of capacity one. */
module OidcGate {
  import opened Text
  import opened Calendar

  type Caller = nat

  /** What a caller returns. A client is identified by a number. */
  datatype Outcome = Resolved(client: nat) | Unavailable | Cancelled

  /** Where a caller is: it waits at the gate, holds it (before its checks, during the factory call, or
      about to return), or has returned. */
  datatype Place = Waiting | Holding | Calling | Leaving(outcome: Outcome) | Returned(outcome: Outcome)

  datatype Event = Started(who: Caller, at: Time) | Failed(who: Caller, at: Time) | Aborted(who: Caller, at: Time)
                 | Succeeded(who: Caller, at: Time, client: nat)

  datatype State = State(now: Time, gate: Option<Caller>, client: Option<nat>, retryAfter: Time,
                         places: map<Caller, Place>, cancelled: set<Caller>, log: seq<Event>)

  const BACKOFF: Duration := 2 * SECOND

  /** What the factory answers: an error, an unusable client, or a client with the right redirect URL. */
  datatype Answer = Error | Unusable | Client(client: nat)

  datatype Action =
    | Enter(who: Caller)
    | Acquire(who: Caller)
    | GiveUp(who: Caller)
    | Check(who: Caller)
    | Finish(who: Caller, answer: Answer)
    | Release(who: Caller)
    | Cancel(who: Caller)
    | Tick(elapsed: nat)

  function Start(now: Time): State {
    State(now, None, None, ZERO_TIME, map[], {}, [])
  }

  predicate IsAt(s: State, who: Caller, place: Place) {
    who in s.places && s.places[who] == place
  }

  /** One step; a step that is not possible changes nothing. */
  function Next(s: State, a: Action): State {
    match a
    case Enter(who) =>
      if who in s.places then s
      else s.(places := s.places[who := if who in s.cancelled then Returned(Cancelled) else Waiting])
    case Acquire(who) =>
      if !IsAt(s, who, Waiting) || s.gate.Some? then s
      else s.(gate := Some(who), places := s.places[who := Holding])
    case GiveUp(who) =>
      if !IsAt(s, who, Waiting) || who !in s.cancelled then s
      else s.(places := s.places[who := Returned(Cancelled)])
    case Check(who) =>
      if !IsAt(s, who, Holding) then s
      else if s.client.Some? then s.(places := s.places[who := Leaving(Resolved(s.client.value))])
      else if s.now < s.retryAfter then s.(places := s.places[who := Leaving(Unavailable)])
      else s.(places := s.places[who := Calling], log := s.log + [Started(who, s.now)])
    case Finish(who, answer) =>
      if !IsAt(s, who, Calling) then s
      else if answer.Error? && who in s.cancelled then
        s.(places := s.places[who := Leaving(Cancelled)], log := s.log + [Aborted(who, s.now)])
      else if !answer.Client? then
        s.(places := s.places[who := Leaving(Unavailable)], retryAfter := s.now + BACKOFF, log := s.log + [Failed(who, s.now)])
      else
        s.(places := s.places[who := Leaving(Resolved(answer.client))], client := Some(answer.client),
           log := s.log + [Succeeded(who, s.now, answer.client)])
    case Release(who) =>
      if who in s.places && s.places[who].Leaving? then s.(gate := None, places := s.places[who := Returned(s.places[who].outcome)])
      else s
    case Cancel(who) => s.(cancelled := s.cancelled + {who})
    case Tick(elapsed) => s.(now := s.now + elapsed)
  }

  function Run(now: Time, actions: seq<Action>): State {
    if actions == [] then Start(now) else Next(Run(now, actions[..|actions| - 1]), actions[|actions| - 1])
  }

  // ----- invariant -----

  predicate Inside(p: Place) {
    p.Holding? || p.Calling? || p.Leaving?
  }

  ghost predicate GateOk(s: State) {
    && (forall c :: c in s.places && Inside(s.places[c]) ==> s.gate == Some(c))
    && (s.gate.Some? ==> s.gate.value in s.places && Inside(s.places[s.gate.value]))
  }

  function ResolvedBy(p: Place): Option<nat> {
    if (p.Leaving? || p.Returned?) && p.outcome.Resolved? then Some(p.outcome.client) else None
  }

  ghost predicate ClientOk(s: State) {
    forall c :: c in s.places && ResolvedBy(s.places[c]).Some? ==> s.client == ResolvedBy(s.places[c])
  }

  /** Every call is followed by its own outcome before the next call starts. */
  predicate Serial(log: seq<Event>) {
    forall i :: 0 <= i < |log| ==> Answers(log, i)
  }

  predicate Answers(log: seq<Event>, i: nat)
    requires i < |log|
  {
    if log[i].Started? then i + 1 < |log| ==> !log[i + 1].Started? && log[i + 1].who == log[i].who
    else i > 0 && log[i - 1].Started? && log[i - 1].who == log[i].who
  }

  predicate InFlight(log: seq<Event>, who: Caller) {
    log != [] && log[|log| - 1].Started? && log[|log| - 1].who == who
  }

  ghost predicate SerialOk(s: State) {
    && Serial(s.log)
    && (forall c :: c in s.places && s.places[c].Calling? ==> InFlight(s.log, c))
    && (s.log != [] && s.log[|s.log| - 1].Started? ==> IsAt(s, s.log[|s.log| - 1].who, Calling))
  }

  /** No call starts after a success, nor within the backoff of a failure. */
  predicate Spaced(log: seq<Event>) {
    forall i, j :: 0 <= i < j < |log| && log[j].Started? ==>
      !log[i].Succeeded? && (log[i].Failed? ==> log[j].at >= log[i].at + 2 * SECOND)
  }

  /** The shared fields are a function of the log: the client of the success in it, and the end of the
      backoff of its last failure. */
  function LastFailure(log: seq<Event>): Time {
    if log == [] then ZERO_TIME
    else if log[|log| - 1].Failed? then log[|log| - 1].at + 2 * SECOND
    else LastFailure(log[..|log| - 1])
  }

  function Success(log: seq<Event>): Option<nat> {
    if log == [] then None
    else if log[|log| - 1].Succeeded? then Some(log[|log| - 1].client)
    else Success(log[..|log| - 1])
  }

  ghost predicate LogOk(s: State) {
    && Spaced(s.log)
    && s.client == Success(s.log) && s.retryAfter == LastFailure(s.log)
    && (forall i :: 0 <= i < |s.log| ==> s.log[i].at <= s.now)
    && (forall i :: 0 <= i < |s.log| && s.log[i].Failed? ==> s.log[i].at + 2 * SECOND <= s.retryAfter)
    && (forall i :: 0 <= i < |s.log| && s.log[i].Succeeded? ==> s.client.Some?)
  }

  ghost predicate Inv(s: State) {
    GateOk(s) && ClientOk(s) && SerialOk(s) && LogOk(s) && forall c :: c in s.places && s.places[c].Calling? ==> s.client.None? && s.now >= s.retryAfter
  }

  lemma SerialAppend(log: seq<Event>, e: Event)
    requires Serial(log)
    requires if e.Started? then log == [] || !log[|log| - 1].Started? else InFlight(log, e.who)
    ensures Serial(log + [e])
  {
    forall i | 0 <= i < |log + [e]| ensures Answers(log + [e], i) {
      if i < |log| { assert Answers(log, i); }
    }
  }

  lemma SpacedAppend(log: seq<Event>, e: Event)
    requires Spaced(log)
    requires e.Started? ==> forall i :: 0 <= i < |log| ==> !log[i].Succeeded? && (log[i].Failed? ==> e.at >= log[i].at + 2 * SECOND)
    ensures Spaced(log + [e])
  {
  }

  lemma LogAppend(log: seq<Event>, e: Event)
    ensures LastFailure(log + [e]) == if e.Failed? then e.at + 2 * SECOND else LastFailure(log)
    ensures Success(log + [e]) == if e.Succeeded? then Some(e.client) else Success(log)
  {
    assert (log + [e])[..|log|] == log;
  }

  /** Steps that leave the log alone. */
  lemma QuietStep(s: State, a: Action)
    requires Inv(s) && Next(s, a).log == s.log
    ensures Inv(Next(s, a))
  {
    hide Serial, Spaced;
  }

  lemma CheckStep(s: State, who: Caller)
    requires Inv(s) && IsAt(s, who, Holding) && s.client.None? && s.now >= s.retryAfter
    ensures Inv(Next(s, Check(who)))
  {
    hide Serial, LastFailure, Success;
    SerialAppend(s.log, Started(who, s.now));
    SpacedAppend(s.log, Started(who, s.now));
    LogAppend(s.log, Started(who, s.now));
  }

  lemma FinishStep(s: State, who: Caller, answer: Answer)
    requires Inv(s) && IsAt(s, who, Calling)
    ensures Inv(Next(s, Finish(who, answer)))
  {
    hide Serial, LastFailure, Success;
    var t := Next(s, Finish(who, answer));
    var e := t.log[|s.log|];
    SerialAppend(s.log, e);
    SpacedAppend(s.log, e);
    LogAppend(s.log, e);
  }

  lemma StepKeeps(s: State, a: Action)
    requires Inv(s)
    ensures Inv(Next(s, a))
  {
    hide Inv;
    if Next(s, a).log == s.log {
      QuietStep(s, a);
    } else if a.Check? {
      CheckStep(s, a.who);
    } else {
      FinishStep(s, a.who, a.answer);
    }
  }

  lemma {:induction false} ReachableInv(now: Time, actions: seq<Action>)
    ensures Inv(Run(now, actions))
  {
    hide Next;
    if actions != [] {
      ReachableInv(now, actions[..|actions| - 1]);
      StepKeeps(Run(now, actions[..|actions| - 1]), actions[|actions| - 1]);
    }
  }

  // ----- what every interleaving keeps -----

  /** At most one factory call is in flight, and only the caller inside the gate holds it: whoever has
      returned does not. */
  lemma OneCallInFlight(now: Time, actions: seq<Action>, c: Caller, d: Caller)
    ensures var s := Run(now, actions);
      && (IsAt(s, c, Calling) && IsAt(s, d, Calling) ==> c == d)
      && (c in s.places && s.places[c].Returned? ==> s.gate != Some(c))
      && (s.gate.Some? ==> s.gate.value in s.places && Inside(s.places[s.gate.value]))
  {
    hide SerialOk, LogOk;
    ReachableInv(now, actions);
  }

  /** All callers that resolve a client resolve the same one. */
  lemma SameClient(now: Time, actions: seq<Action>, c: Caller, d: Caller)
    ensures var s := Run(now, actions);
      c in s.places && d in s.places && s.places[c].Returned? && s.places[c].outcome.Resolved?
      && s.places[d].Returned? && s.places[d].outcome.Resolved? ==>
        s.places[c].outcome == s.places[d].outcome
  {
    hide LogOk;
    ReachableInv(now, actions);
  }

  /** The history of factory calls: one after the other, none after a success, none within two seconds
      of a failure that was not a cancellation. */
  lemma CallHistory(now: Time, actions: seq<Action>)
    ensures var s := Run(now, actions);
      Serial(s.log) && Spaced(s.log) && s.client == Success(s.log) && s.retryAfter == LastFailure(s.log)
  {
    ReachableInv(now, actions);
  }

  /** Only the cancelled are turned away: a caller returns as cancelled only if it was. */
  lemma {:induction false} CancelledOnly(now: Time, actions: seq<Action>, who: Caller)
    ensures var s := Run(now, actions);
      IsAt(s, who, Leaving(Cancelled)) || IsAt(s, who, Returned(Cancelled)) ==> who in s.cancelled
  {
    if actions != [] { CancelledOnly(now, actions[..|actions| - 1], who); }
  }

  /** A cancelled attempt costs the others nothing: at the very instant it is given up, the next waiting
      caller may start a call of its own. */
  lemma CancelledChangesNothing(now: Time, actions: seq<Action>, who: Caller, next: Caller)
    requires IsAt(Run(now, actions), who, Calling) && who in Run(now, actions).cancelled
    requires IsAt(Run(now, actions), next, Waiting)
    ensures var s, t := Run(now, actions), Run(now, actions + [Finish(who, Error)] + [Release(who)] + [Acquire(next)] + [Check(next)]);
      && t.client == s.client && t.retryAfter == s.retryAfter && t.now == s.now
      && IsAt(t, who, Returned(Cancelled)) && IsAt(t, next, Calling)
  {
    hide SerialOk, Run;
    ReachableInv(now, actions);
    RunMore(now, actions, Finish(who, Error));
    RunMore(now, actions + [Finish(who, Error)], Release(who));
    RunMore(now, actions + [Finish(who, Error)] + [Release(who)], Acquire(next));
    RunMore(now, actions + [Finish(who, Error)] + [Release(who)] + [Acquire(next)], Check(next));
  }

  /** The gate is released on every path: its holder returns by steps of its own, whatever the factory
      answers, and then nobody holds it. */
  lemma HolderGetsOut(now: Time, actions: seq<Action>, who: Caller, answer: Answer)
    requires Run(now, actions).gate == Some(who)
    ensures var t := Run(now, actions + [Check(who)] + [Finish(who, answer)] + [Release(who)]);
      t.gate.None? && who in t.places && t.places[who].Returned?
  {
    hide SerialOk, LogOk;
    ReachableInv(now, actions);
    RunMore(now, actions, Check(who));
    RunMore(now, actions + [Check(who)], Finish(who, answer));
    RunMore(now, actions + [Check(who)] + [Finish(who, answer)], Release(who));
  }

  lemma RunMore(now: Time, actions: seq<Action>, a: Action)
    ensures Run(now, actions + [a]) == Next(Run(now, actions), a)
  {
    assert (actions + [a])[..|actions|] == actions;
  }

  // ----- one caller on its own -----

  /** A caller passes the gate and checks. */
  function Admitted(s: State, who: Caller): State {
    Next(Next(Next(s, Enter(who)), Acquire(who)), Check(who))
  }

  /** Its factory call ends after `later`, perhaps with the caller cancelled meanwhile. */
  function Answered(s: State, who: Caller, later: nat, answer: Answer, cancelled: bool): State {
    Next(Next(if cancelled then Next(s, Cancel(who)) else s, Tick(later)), Finish(who, answer))
  }

  lemma AdmittedIs(s: State, who: Caller)
    requires s.gate.None? && who !in s.places && who !in s.cancelled && Inv(s)
    ensures var t := Admitted(s, who);
      && Inv(t) && t.gate == Some(who) && t.client == s.client && t.retryAfter == s.retryAfter && t.now == s.now && t.cancelled == s.cancelled
      && IsAt(t, who, if s.client.Some? then Leaving(Resolved(s.client.value))
                      else if s.now < s.retryAfter then Leaving(Unavailable) else Calling)
      && t.log == if IsAt(t, who, Calling) then s.log + [Started(who, s.now)] else s.log
  {
    hide Inv;
    StepKeeps(s, Enter(who));
    StepKeeps(Next(s, Enter(who)), Acquire(who));
    StepKeeps(Next(Next(s, Enter(who)), Acquire(who)), Check(who));
  }

  lemma AnsweredIs(s: State, who: Caller, later: nat, answer: Answer, cancelled: bool)
    requires IsAt(s, who, Calling) && who !in s.cancelled && Inv(s)
    ensures var t := Answered(s, who, later, answer, cancelled);
      && Inv(t) && t.gate == s.gate && who in t.places && t.places[who].Leaving?
      && |t.log| == |s.log| + 1 && t.log[..|s.log|] == s.log
      && (match t.places[who].outcome
          case Resolved(c) => answer == Client(c) && t.client == Some(c) && t.retryAfter == s.retryAfter
          case Unavailable => !answer.Client? && !(answer.Error? && cancelled)
                              && t.client == s.client && t.retryAfter == s.now + later + 2 * SECOND
          case Cancelled => answer.Error? && cancelled && t.client == s.client && t.retryAfter == s.retryAfter)
  {
    hide Inv;
    var s1 := if cancelled then Next(s, Cancel(who)) else s;
    StepKeeps(s, Cancel(who));
    StepKeeps(s1, Tick(later));
    StepKeeps(Next(s1, Tick(later)), Finish(who, answer));
  }

  lemma ReleasedIs(s: State, who: Caller)
    requires who in s.places && s.places[who].Leaving? && Inv(s)
    ensures var t := Next(s, Release(who));
      Inv(t) && t.gate.None? && IsAt(t, who, Returned(s.places[who].outcome))
      && t.client == s.client && t.retryAfter == s.retryAfter && t.log == s.log
  {
    hide Inv;
    StepKeeps(s, Release(who));
  }

  // ----- the shared fields, changed in place -----

  /** The service's gate, client and backoff. `ResolveOIDC` is one caller running on its own; its
      statements are the steps that other callers' steps may come between. */
  class Authority {
    var held: Option<Caller>
    var client: Option<nat>
    var retryAfter: Time

    constructor (ghost now: Time)
      ensures held == Start(now).gate && client == Start(now).client && retryAfter == Start(now).retryAfter
    {
      held, client, retryAfter := None, None, ZERO_TIME;
    }

    method ResolveOIDC(who: Caller, now: Time, later: nat, answer: Answer, cancelled: bool, ghost s: State) returns (r: Outcome, ghost t: State)
      requires held == s.gate == None && client == s.client && retryAfter == s.retryAfter && who !in s.places && s.now == now && who !in s.cancelled && Inv(s)
      modifies this
      ensures held == t.gate == None && client == t.client && retryAfter == t.retryAfter && Inv(t) && IsAt(t, who, Returned(r))
      ensures s.client.Some? ==> r == Resolved(s.client.value) && t.log == s.log
      ensures s.client.None? && now < s.retryAfter ==> r == Unavailable && t.log == s.log
      ensures s.client.None? && now >= s.retryAfter ==>
        && |t.log| == |s.log| + 2 && t.log[..|s.log|] == s.log && t.log[|s.log|] == Started(who, now)
        && (r.Resolved? <==> answer.Client?) && (r.Resolved? ==> client == Some(answer.client))
        && (r.Cancelled? <==> answer.Error? && cancelled)
        && (r.Cancelled? ==> client == old(client) && retryAfter == old(retryAfter))
        && (r.Unavailable? ==> retryAfter == now + later + 2 * SECOND)
    {
      hide Inv, Admitted, Answered;
      held := Some(who);
      AdmittedIs(s, who);
      t := Admitted(s, who);
      if client.Some? {
        r := Resolved(client.value);
      } else if now < retryAfter {
        r := Unavailable;
      } else {
        AnsweredIs(t, who, later, answer, cancelled);
        t := Answered(t, who, later, answer, cancelled);
        if answer.Error? && cancelled {
          r := Cancelled;
        } else if !answer.Client? {
          retryAfter := now + later + BACKOFF;
          r := Unavailable;
        } else {
          client := Some(answer.client);
          r := Resolved(answer.client);
        }
      }
      ReleasedIs(t, who);
      t := Next(t, Release(who));
      held := None;
    }
  }
}
