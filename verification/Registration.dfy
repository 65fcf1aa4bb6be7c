/** The life of a service registration: a heartbeat goroutine, cancellation and any number of
    concurrent `Stop` calls, interleaved at every provider call. */
module Registrations {

  datatype Call = Register | Heartbeat | Deregister | Close
  /** Provider calls as their provider sees them: each begins and ends. */
  datatype Event = Begin(call: Call) | End(call: Call, failed: bool)

  type Stopper = nat

  datatype Launch = NotStarted | Registering | Refused | Launched
  datatype Loop = Idle | Beating | Exited
  /** `sync.Once`: free, taken by one caller at some point of its body, or finished. */
  datatype Once = Free | Entered(owner: Stopper) | Cancelled(owner: Stopper) | Deregistering(owner: Stopper)
                | Deregistered(owner: Stopper, failed: bool) | Closing(owner: Stopper, failed: bool) | Finished
  datatype Stop = Stopping | Blocked | Stopped(failed: bool)

  datatype State = State(launch: Launch, loop: Loop, cancelled: bool, once: Once, stops: map<Stopper, Stop>, trace: seq<Event>)

  const START := State(NotStarted, Idle, false, Free, map[], [])

  datatype Action =
    | BeginRegister | EndRegister(failed: bool)
    | Tick | EndBeat(failed: bool) | Exit
    | ParentCancel
    | CallStop(who: Stopper) | Wake(who: Stopper)
    | CancelRun | BeginDeregister | EndDeregister(failed: bool) | BeginClose | EndClose(failed: bool)

  function Log(s: State, e: Event): State {
    s.(trace := s.trace + [e])
  }

  /** One step; a step that is not possible changes nothing. */
  function Next(s: State, a: Action): State {
    match a
    case BeginRegister => if s.launch.NotStarted? then Log(s, Begin(Register)).(launch := Registering) else s
    case EndRegister(failed) =>
      if s.launch.Registering? then Log(s, End(Register, failed)).(launch := if failed then Refused else Launched) else s
    case Tick => if s.launch.Launched? && s.loop.Idle? then Log(s, Begin(Heartbeat)).(loop := Beating) else s
    case EndBeat(failed) => if s.loop.Beating? then Log(s, End(Heartbeat, failed)).(loop := Idle) else s
    case Exit => if s.launch.Launched? && s.loop.Idle? && s.cancelled then s.(loop := Exited) else s
    case ParentCancel => s.(cancelled := true)
    case CallStop(who) =>
      if !s.launch.Launched? || who in s.stops then s
      else if s.once.Free? then s.(once := Entered(who), stops := s.stops[who := Stopping])
      else s.(stops := s.stops[who := if s.once.Finished? then Stopped(false) else Blocked])
    case Wake(who) =>
      if who in s.stops && s.stops[who].Blocked? && s.once.Finished? then s.(stops := s.stops[who := Stopped(false)]) else s
    case CancelRun => if s.once.Entered? then s.(cancelled := true, once := Cancelled(s.once.owner)) else s
    case BeginDeregister =>
      if s.once.Cancelled? && s.loop.Exited? then Log(s, Begin(Deregister)).(once := Deregistering(s.once.owner)) else s
    case EndDeregister(failed) =>
      if s.once.Deregistering? then Log(s, End(Deregister, failed)).(once := Deregistered(s.once.owner, failed)) else s
    case BeginClose => if s.once.Deregistered? then Log(s, Begin(Close)).(once := Closing(s.once.owner, s.once.failed)) else s
    case EndClose(failed) =>
      if s.once.Closing? then
        Log(s, End(Close, failed)).(once := Finished, stops := s.stops[s.once.owner := Stopped(s.once.failed || failed)])
      else s
  }

  function Run(actions: seq<Action>): State {
    if actions == [] then START else Next(Run(actions[..|actions| - 1]), actions[|actions| - 1])
  }

  // ----- the promised order of provider calls, as an automaton -----

  datatype Phase = Fresh | InRegister | Up | InHeartbeat | InDeregister | Down | InClose | Closed | Failed | Broken

  function Read(p: Phase, e: Event): Phase {
    match (p, e)
    case (Fresh, Begin(Register)) => InRegister
    case (InRegister, End(Register, failed)) => if failed then Failed else Up
    case (Up, Begin(Heartbeat)) => InHeartbeat
    case (InHeartbeat, End(Heartbeat, _)) => Up
    case (Up, Begin(Deregister)) => InDeregister
    case (InDeregister, End(Deregister, _)) => Down
    case (Down, Begin(Close)) => InClose
    case (InClose, End(Close, _)) => Closed
    case _ => Broken
  }

  function ReadAll(trace: seq<Event>): Phase {
    if trace == [] then Fresh else Read(ReadAll(trace[..|trace| - 1]), trace[|trace| - 1])
  }

  lemma ReadMore(trace: seq<Event>, e: Event)
    ensures ReadAll(trace + [e]) == Read(ReadAll(trace), e)
  {
    assert (trace + [e])[..|trace|] == trace;
  }

  /** Where the goroutines are determines what the provider has seen. */
  function PhaseOf(s: State): Phase {
    match s.launch
    case NotStarted => Fresh
    case Registering => InRegister
    case Refused => Failed
    case Launched =>
      match s.once
      case Deregistering(_) => InDeregister
      case Deregistered(_, _) => Down
      case Closing(_, _) => InClose
      case Finished => Closed
      case _ => if s.loop.Beating? then InHeartbeat else Up
  }

  /** One of the two calls that take the service down has failed. */
  predicate TakedownFailed(trace: seq<Event>) {
    End(Deregister, true) in trace || End(Close, true) in trace
  }

  /** The goroutines and what the provider has seen agree. */
  ghost predicate CallsOk(s: State) {
    && ReadAll(s.trace) == PhaseOf(s)
    && (!s.launch.Launched? ==> s.loop.Idle? && s.once.Free?)
    && (s.once.Deregistering? || s.once.Deregistered? || s.once.Closing? || s.once.Finished? ==> s.loop.Exited?)
  }

  /** Who is stopping, and what stops that are over have reported. */
  ghost predicate StopsOk(s: State) {
    && (s.once.Free? ==> s.stops == map[])
    && (forall c :: c in s.stops && s.stops[c].Stopped? ==> s.once.Finished?)
    && (!s.once.Free? && !s.once.Finished? ==> s.once.owner in s.stops && s.stops[s.once.owner].Stopping?)
    && (forall c :: c in s.stops && s.stops[c].Stopping? ==> !s.once.Free? && !s.once.Finished? && s.once.owner == c)
    && (forall c, d :: c in s.stops && d in s.stops && s.stops[c] == Stopped(true) && s.stops[d] == Stopped(true) ==> c == d)
    && (forall c :: c in s.stops && s.stops[c] == Stopped(true) ==> TakedownFailed(s.trace))
    && ((s.once.Deregistered? || s.once.Closing?) && s.once.failed ==> End(Deregister, true) in s.trace)
  }

  ghost predicate Inv(s: State) {
    CallsOk(s) && StopsOk(s)
  }

  lemma StepKeeps(s: State, a: Action)
    requires Inv(s)
    ensures Inv(Next(s, a))
  {
    hide CallsOk, Next;
    CallsKept(s, a);
    StopsKept(s, a);
  }

  lemma CallsKept(s: State, a: Action)
    requires CallsOk(s)
    ensures CallsOk(Next(s, a))
  {
    hide ReadAll;
    var t := Next(s, a);
    if t.trace != s.trace { ReadMore(s.trace, t.trace[|s.trace|]); }
  }

  lemma StopsKept(s: State, a: Action)
    requires StopsOk(s)
    ensures StopsOk(Next(s, a))
  {
    assert s.trace <= Next(s, a).trace;
  }

  lemma {:induction false} ReachableInv(actions: seq<Action>)
    ensures Inv(Run(actions))
  {
    hide Next;
    if actions == [] {
      assert Inv(START) by { StartOk(); }
    } else {
      ReachableInv(actions[..|actions| - 1]);
      StepKeeps(Run(actions[..|actions| - 1]), actions[|actions| - 1]);
    }
  }

  lemma StartOk()
    ensures Inv(START)
  {
  }

  /** Under every interleaving the provider sees Register, then heartbeats, then at most one Deregister
      followed by one Close, and no two calls overlap. */
  lemma CallsInOrder(actions: seq<Action>)
    ensures !ReadAll(Run(actions).trace).Broken?
  {
    ReachableInv(actions);
  }

  /** A `Stop` that has returned, the first or any other, returned after Close. */
  lemma StopMeansClosed(actions: seq<Action>, who: Stopper)
    requires var s := Run(actions); who in s.stops && s.stops[who].Stopped?
    ensures ReadAll(Run(actions).trace).Closed? && Run(actions).loop.Exited?
  {
    hide ReadAll;
    ReachableInv(actions);
  }

  // ----- what the automaton's language means -----

  function Count(trace: seq<Event>, e: Call): nat {
    if trace == [] then 0 else Count(trace[..|trace| - 1], e) + (if trace[|trace| - 1] == Begin(e) then 1 else 0)
  }

  predicate After(p: Phase) {
    p.InDeregister? || p.Down? || p.InClose? || p.Closed?
  }

  lemma {:induction false} AutomatonCounts(trace: seq<Event>)
    requires !ReadAll(trace).Broken?
    ensures var p := ReadAll(trace);
      && Count(trace, Register) == (if p.Fresh? then 0 else 1)
      && Count(trace, Deregister) == (if After(p) then 1 else 0)
      && Count(trace, Close) == (if p.InClose? || p.Closed? then 1 else 0)
  {
    if trace != [] { AutomatonCounts(trace[..|trace| - 1]); }
  }

  lemma {:induction false} PrefixNotBroken(trace: seq<Event>, i: nat)
    requires !ReadAll(trace).Broken? && i <= |trace|
    ensures !ReadAll(trace[..i]).Broken?
    decreases |trace|
  {
    if i < |trace| {
      PrefixNotBroken(trace[..|trace| - 1], i);
      assert trace[..|trace| - 1][..i] == trace[..i];
    } else {
      assert trace[..i] == trace;
    }
  }

  lemma {:induction false} AfterStays(trace: seq<Event>, i: nat)
    requires !ReadAll(trace).Broken? && i <= |trace| && After(ReadAll(trace[..i]))
    ensures After(ReadAll(trace))
    decreases |trace|
  {
    if i < |trace| {
      PrefixNotBroken(trace, |trace| - 1);
      assert trace[..|trace| - 1][..i] == trace[..i];
      AfterStays(trace[..|trace| - 1], i);
    } else {
      assert trace[..i] == trace;
    }
  }

  lemma ReadAt(trace: seq<Event>, i: nat)
    requires !ReadAll(trace).Broken? && i < |trace|
    ensures ReadAll(trace[..i + 1]) == Read(ReadAll(trace[..i]), trace[i]) && !ReadAll(trace[..i + 1]).Broken?
  {
    hide Read;
    PrefixNotBroken(trace, i + 1);
    assert trace[..i + 1][..i] == trace[..i];
  }

  lemma AfterUpTo(trace: seq<Event>, i: nat, j: nat)
    requires !ReadAll(trace).Broken? && i <= j <= |trace| && After(ReadAll(trace[..i]))
    ensures After(ReadAll(trace[..j]))
  {
    hide ReadAll;
    PrefixNotBroken(trace, j);
    assert trace[..j][..i] == trace[..i];
    AfterStays(trace[..j], i);
  }

  /** No heartbeat ever begins after Deregister has begun. */
  lemma NoBeatAfterDeregister(actions: seq<Action>, i: nat, j: nat)
    requires var trace := Run(actions).trace; i < j < |trace| && trace[i] == Begin(Deregister)
    ensures Run(actions).trace[j] != Begin(Heartbeat)
  {
    hide ReadAll, Run;
    var trace := Run(actions).trace;
    CallsInOrder(actions);
    ReadAt(trace, i);
    AfterUpTo(trace, i + 1, j);
    ReadAt(trace, j);
  }

  /** At most one Deregister and one Close are ever called, however many `Stop` calls run. */
  lemma StopOnce(actions: seq<Action>)
    ensures Count(Run(actions).trace, Close) <= Count(Run(actions).trace, Deregister) <= 1
    ensures Count(Run(actions).trace, Register) <= 1
  {
    hide Run;
    CallsInOrder(actions);
    AutomatonCounts(Run(actions).trace);
  }

  /** At most one `Stop` ever reports an error, and only if Deregister or Close failed. */
  lemma OnlyOwnerFails(actions: seq<Action>, c: Stopper, d: Stopper)
    requires var s := Run(actions); c in s.stops && d in s.stops && s.stops[c] == Stopped(true) && s.stops[d] == Stopped(true)
    ensures c == d && TakedownFailed(Run(actions).trace)
  {
    ReachableInv(actions);
  }

  /** What has failed so far is remembered, and reported once it is over. */
  ghost predicate FailureOk(s: State) {
    && (End(Close, true) in s.trace ==> s.once.Finished?)
    && (s.once.Free? || s.once.Entered? || s.once.Cancelled? || s.once.Deregistering? ==> End(Deregister, true) !in s.trace)
    && (s.once.Deregistered? || s.once.Closing? ==> (s.once.failed <==> End(Deregister, true) in s.trace))
    && (s.once.Finished? ==> (TakedownFailed(s.trace) <==> exists c :: c in s.stops && s.stops[c] == Stopped(true)))
    && (!s.once.Finished? ==> forall c :: c in s.stops ==> s.stops[c] != Stopped(true))
  }

  /** Steps that report nothing about the takedown. */
  lemma QuietFailureStep(s: State, a: Action)
    requires FailureOk(s) && !a.EndDeregister? && !a.EndClose?
    ensures FailureOk(Next(s, a))
  {
    var t := Next(s, a);
    assert t.trace == s.trace || (|t.trace| == |s.trace| + 1 && t.trace == s.trace + [t.trace[|s.trace|]]);
    assert TakedownFailed(t.trace) == TakedownFailed(s.trace);
    if s.once.Finished? && exists c :: c in s.stops && s.stops[c] == Stopped(true) {
      var c :| c in s.stops && s.stops[c] == Stopped(true);
      assert c in t.stops && t.stops[c] == Stopped(true);
    }
  }

  lemma TakedownStep(s: State, a: Action)
    requires FailureOk(s) && (a.EndDeregister? || a.EndClose?)
    ensures FailureOk(Next(s, a))
  {
    var t := Next(s, a);
    assert t.trace == s.trace || (|t.trace| == |s.trace| + 1 && t.trace == s.trace + [t.trace[|s.trace|]]);
    if a.EndClose? && s.once.Closing? { assert s.once.owner in t.stops && t.stops[s.once.owner] == Stopped(s.once.failed || a.failed); }
  }

  /** No failure is lost: once the takedown is over, some `Stop` has reported an error exactly if Deregister
      or Close failed. */
  lemma {:induction false} FailureReported(actions: seq<Action>)
    ensures FailureOk(Run(actions))
    ensures Run(actions).once.Finished? ==>
      (TakedownFailed(Run(actions).trace) <==> exists c :: c in Run(actions).stops && Run(actions).stops[c] == Stopped(true))
  {
    hide Next, TakedownFailed;
    if actions == [] {
      NothingFailed();
    } else {
      FailureReported(actions[..|actions| - 1]);
      var s, a := Run(actions[..|actions| - 1]), actions[|actions| - 1];
      if a.EndDeregister? || a.EndClose? { TakedownStep(s, a); } else { QuietFailureStep(s, a); }
    }
  }

  lemma NothingFailed()
    ensures FailureOk(START)
  {
  }

  lemma RunMore(actions: seq<Action>, a: Action)
    ensures Run(actions + [a]) == Next(Run(actions), a)
  {
    assert (actions + [a])[..|actions|] == actions;
  }

  /** Taking the once, cancelling, and the loop's exit. */
  lemma LoopStopped(done: seq<Action>, who: Stopper)
    requires var s := Run(done); s.launch.Launched? && s.once.Free? && !s.loop.Beating? && who !in s.stops
    ensures var s, t := Run(done), Run(done + [CallStop(who)] + [CancelRun] + [Exit]);
      t == s.(once := Cancelled(who), cancelled := true, loop := Exited, stops := s.stops[who := Stopping])
  {
    hide Run;
    RunMore(done, CallStop(who));
    RunMore(done + [CallStop(who)], CancelRun);
    RunMore(done + [CallStop(who)] + [CancelRun], Exit);
  }

  /** The provider calls of the winning `Stop`. */
  lemma TakingDown(done: seq<Action>, who: Stopper, deregisterFailed: bool, closeFailed: bool)
    requires Run(done).once == Cancelled(who) && Run(done).loop.Exited?
    ensures var s := Run(done);
      var t := Run(done + [BeginDeregister] + [EndDeregister(deregisterFailed)] + [BeginClose] + [EndClose(closeFailed)]);
      t == s.(once := Finished, stops := s.stops[who := Stopped(deregisterFailed || closeFailed)],
              trace := s.trace + [Begin(Deregister)] + [End(Deregister, deregisterFailed)] + [Begin(Close)] + [End(Close, closeFailed)])
  {
    hide Run;
    RunMore(done, BeginDeregister);
    RunMore(done + [BeginDeregister], EndDeregister(deregisterFailed));
    RunMore(done + [BeginDeregister] + [EndDeregister(deregisterFailed)], BeginClose);
    RunMore(done + [BeginDeregister] + [EndDeregister(deregisterFailed)] + [BeginClose], EndClose(closeFailed));
  }

  // ----- the registration object, one goroutine at a time -----

  /** `Start`, the heartbeats between two waits of the loop, and `Stop`, each run without interruption.
      `done` is the run of the protocol that they amount to. */
  class Registration {
    var trace: seq<Event>
    var launched: bool
    var exited: bool
    var cancelled: bool
    var finished: bool
    ghost var done: seq<Action>

    ghost predicate Shows()
      reads this
    {
      var s := Run(done);
      && trace == s.trace && launched == s.launch.Launched? && exited == s.loop.Exited? && cancelled == s.cancelled
      && finished == s.once.Finished? && !s.launch.Registering? && !s.loop.Beating? && (s.once.Free? || s.once.Finished?)
    }

    constructor ()
      ensures Shows() && done == []
    {
      trace, launched, exited, cancelled, finished, done := [], false, false, false, false, [];
    }

    method Start(failed: bool)
      requires Shows() && Run(done).launch.NotStarted?
      modifies this
      ensures Shows() && launched == !failed && trace == old(trace) + [Begin(Register), End(Register, failed)]
    {
      RunMore(done, BeginRegister);
      RunMore(done + [BeginRegister], EndRegister(failed));
      done := done + [BeginRegister] + [EndRegister(failed)];
      trace := trace + [Begin(Register)];
      trace := trace + [End(Register, failed)];
      launched := !failed;
    }

    /** One tick of the loop; the heartbeat's error is ignored. */
    method Beat(failed: bool)
      requires Shows() && launched && !exited
      modifies this
      ensures Shows() && launched && !exited && finished == old(finished) && cancelled == old(cancelled)
      ensures trace == old(trace) + [Begin(Heartbeat), End(Heartbeat, failed)]
    {
      RunMore(done, Tick);
      RunMore(done + [Tick], EndBeat(failed));
      done := done + [Tick] + [EndBeat(failed)];
      trace := trace + [Begin(Heartbeat)];
      trace := trace + [End(Heartbeat, failed)];
    }

    /** The first `Stop` cancels the loop, waits for its exit and takes the service down; later ones do
        nothing. */
    method Stop(who: Stopper, deregisterFailed: bool, closeFailed: bool) returns (failed: bool)
      requires Shows() && launched && who !in Run(done).stops
      modifies this
      ensures Shows() && finished && exited && launched
      ensures old(finished) ==> !failed && trace == old(trace)
      ensures !old(finished) ==> failed == (deregisterFailed || closeFailed)
      ensures !old(finished) ==>
        trace == old(trace) + [Begin(Deregister)] + [End(Deregister, deregisterFailed)] + [Begin(Close)] + [End(Close, closeFailed)]
    {
      hide Run;
      if finished { ReachableInv(done); return false; }
      LoopStopped(done, who);
      done := done + [CallStop(who)] + [CancelRun] + [Exit];
      cancelled, exited := true, true;
      TakingDown(done, who, deregisterFailed, closeFailed);
      done := done + [BeginDeregister] + [EndDeregister(deregisterFailed)] + [BeginClose] + [EndClose(closeFailed)];
      trace := trace + [Begin(Deregister)];
      trace := trace + [End(Deregister, deregisterFailed)];
      trace := trace + [Begin(Close)];
      trace := trace + [End(Close, closeFailed)];
      finished := true;
      failed := deregisterFailed || closeFailed;
    }
  }
}
