/** When `stop_process` forces the process tree, in a timed model without faults: a supervisor
    that can move does so at once, and time never jumps over an armed timer. */
module TimedStop {
  import opened TaskModel
  import opened Supervisor
  import opened SupervisorInvariant

  predicate FaultFree(a: Action) {
    !a.Fail? && !a.PersistFail? && !a.LateQueryError?
  }

  /** The supervisor has a step to take. */
  ghost predicate Ready(c: Config, s: State) {
    exists a: Action :: !IsEnvironment(a) && FaultFree(a) && Enabled(c, s, a)
  }

  /** The timer that the current `select!` has armed. */
  function Timer(s: State): Option<nat> {
    if PollsForce(s.pc) then Some(s.graceDeadline)
    else if s.pc.Selecting? || s.pc.LateTree? then Some(s.deadline)
    else None
  }

  ghost predicate Urgent(c: Config, s: State, a: Action) {
    && FaultFree(a)
    && (a.Tick? ==> !Ready(c, s) && (Timer(s).Some? ==> s.env.now + a.d <= Timer(s).value))
  }

  ghost predicate UrgentRun(c: Config, s: State, acts: seq<Action>)
    requires CanRun(c, s, acts)
    decreases |acts|
  {
    acts == [] || (Urgent(c, s, acts[0]) && UrgentRun(c, Apply(c, s, acts[0]), acts[1..]))
  }

  // ---- One call of stop_process ----

  /** The call: entered at `t0` with reason `r`. */
  datatype Call = Call(t0: nat, r: StopReason)

  /** The latest moment at which the tree may be forced. */
  function Limit(c: Config, call: Call): nat {
    if call.r.ForceKilled? then call.t0 else call.t0 + c.grace
  }

  /** A decision to force with reason `q`, taken at time `t`: at the limit and for the reason
      of the call, or earlier because ForceKilled was read. */
  predicate OnTime(c: Config, call: Call, k: Core, t: nat, q: StopReason) {
    && t <= Limit(c, call)
    && k.graceful == (if call.r.ForceKilled? then 0 else 1)
    && (call.r.ForceKilled? ==> !k.forceSeen)
    && (if k.forceSeen then q == ForceKilled else q == call.r && t == Limit(c, call))
  }

  /** How a call may end. */
  predicate Outcome(c: Config, call: Call, k: Core) {
    && k.stopReason.Some? && k.workerSeen && k.treeSeen
    && if k.forces == []
       then k.stopReason == Some(call.r) && !k.forceSeen && !call.r.ForceKilled? && k.graceful == 1
       else |k.forces| == 1 && OnTime(c, call, k, k.forces[0], k.stopReason.value)
  }

  predicate Timely(c: Config, call: Call, s: State) {
    match Target(s.pc)
    case StopBegin(q) => q == call.r && s.env.now == call.t0 && !s.pc.Persisting?
    case Signalling(q) => q == call.r && s.env.now == call.t0 && !q.ForceKilled?
    case GraceWorker(q) => q == call.r && s.graceDeadline == Limit(c, call) && s.env.now <= Limit(c, call) && !q.ForceKilled?
    case GraceTree(q) => q == call.r && s.graceDeadline == Limit(c, call) && s.env.now <= Limit(c, call) && !q.ForceKilled?
    case Forcing(q) => OnTime(c, call, s.core, s.env.now, q)
    case ForceWorker(q) => |s.core.forces| == 1 && OnTime(c, call, s.core, s.core.forces[0], q)
    case ForceTree(q) => |s.core.forces| == 1 && OnTime(c, call, s.core, s.core.forces[0], q)
    case Capturing => false
    case Spawning => false
    case Selecting => false
    case LateTree => false
    case LateForcing => false
    case LateEmpty => false
    case _ => Outcome(c, call, s.core)
  }

  // ---- Steps ----

  lemma NoTimePassesWhenReady(c: Config, s: State)
    requires s.pc.Persisting? || s.pc.StopBegin? || s.pc.Signalling? || s.pc.Forcing?
    ensures Ready(c, s)
  {
    if s.pc.Persisting? {
      assert Enabled(c, s, PersistOk);
    } else if s.pc.StopBegin? {
      assert Enabled(c, s, EnterStop);
    } else if s.pc.Signalling? {
      assert Enabled(c, s, SignalGraceful);
    } else {
      assert Enabled(c, s, CallForce);
    }
  }

  lemma SameTimeIsTimely(c: Config, call: Call, s: State, e: Env)
    requires Timely(c, call, s) && e.now == s.env.now
    ensures Timely(c, call, s.(env := e))
  {
  }

  lemma TickIsTimely(c: Config, call: Call, s: State, d: nat)
    requires Timely(c, call, s) && Urgent(c, s, Tick(d))
    ensures Timely(c, call, s.(env := s.env.(now := s.env.now + d)))
  {
    if s.pc.Persisting? || s.pc.StopBegin? || s.pc.Signalling? || s.pc.Forcing? {
      NoTimePassesWhenReady(c, s);
    }
  }

  lemma EnvironmentIsTimely(c: Config, call: Call, s: State, a: Action)
    requires Timely(c, call, s) && IsEnvironment(a) && Enabled(c, s, a) && Urgent(c, s, a)
    ensures Timely(c, call, Apply(c, s, a))
  {
    if a.Tick? {
      TickIsTimely(c, call, s, a.d);
    } else {
      SameTimeIsTimely(c, call, s, ApplyEnvironment(s.env, a));
    }
  }

  lemma EntryIsTimely(c: Config, call: Call, s: State, a: Action)
    requires Inv(s) && Timely(c, call, s) && (a.DeadlineHit? || a.EnterStop? || a.SignalGraceful?)
    requires SupervisorEnabled(c, s, a)
    ensures Timely(c, call, ApplySupervisor(c, s, a))
  {
  }

  lemma StopReadIsTimely(c: Config, call: Call, s: State)
    requires Inv(s) && Timely(c, call, s) && SupervisorEnabled(c, s, StopObserved)
    ensures Timely(c, call, ObserveStop(s))
  {
  }

  lemma ForceIsTimely(c: Config, call: Call, s: State, a: Action)
    requires Inv(s) && Timely(c, call, s) && (a.GraceExpired? || a.CallForce?)
    requires SupervisorEnabled(c, s, a)
    ensures Timely(c, call, ApplySupervisor(c, s, a))
  {
  }

  lemma JoinIsTimely(c: Config, call: Call, s: State, a: Action)
    requires Inv(s) && Timely(c, call, s) && (a.LateExpired? || a.LateQueryError? || a.JoinReader?)
    requires SupervisorEnabled(c, s, a)
    ensures Timely(c, call, ApplySupervisor(c, s, a))
  {
  }

  lemma PublishIsTimely(c: Config, call: Call, s: State, a: Action)
    requires Inv(s) && Timely(c, call, s) && (a.Release? || a.Publish?)
    requires SupervisorEnabled(c, s, a)
    ensures Timely(c, call, ApplySupervisor(c, s, a))
  {
  }

  lemma ReturnIsTimely(c: Config, call: Call, s: State, a: Action)
    requires Inv(s) && Timely(c, call, s) && (a.FailTransition? || a.MarkFinished?)
    requires SupervisorEnabled(c, s, a)
    ensures Timely(c, call, ApplySupervisor(c, s, a))
  {
  }

  lemma PersistIsTimely(c: Config, call: Call, s: State)
    requires Inv(s) && Timely(c, call, s) && s.pc.Persisting?
    ensures Timely(c, call, Persisted(c, s))
  {
  }

  lemma WorkerExitIsTimely(c: Config, call: Call, s: State)
    requires Inv(s) && Timely(c, call, s) && SupervisorEnabled(c, s, WorkerObserved)
    ensures Timely(c, call, ObserveWorker(s))
  {
  }

  lemma TreeEndIsTimely(c: Config, call: Call, s: State)
    requires Inv(s) && Timely(c, call, s) && SupervisorEnabled(c, s, TreeObserved)
    ensures Timely(c, call, ObserveTree(s))
  {
  }

  lemma OtherActionIsTimely(c: Config, call: Call, s: State, a: Action)
    requires Inv(s) && Timely(c, call, s) && !IsEnvironment(a) && !IsStopAction(a) && !IsEndAction(a) && FaultFree(a)
    requires SupervisorEnabled(c, s, a)
    ensures Timely(c, call, ApplySupervisor(c, s, a))
  {
    assert !s.pc.Capturing? && !s.pc.Spawning?;
    if a.PersistOk? {
      PersistIsTimely(c, call, s);
    } else if a.WorkerObserved? {
      WorkerExitIsTimely(c, call, s);
    } else {
      TreeEndIsTimely(c, call, s);
    }
  }

  lemma SupervisorIsTimely(c: Config, call: Call, s: State, a: Action)
    requires Inv(s) && Timely(c, call, s) && !IsEnvironment(a) && FaultFree(a) && SupervisorEnabled(c, s, a)
    ensures Timely(c, call, ApplySupervisor(c, s, a))
  {
    if a.DeadlineHit? || a.EnterStop? || a.SignalGraceful? {
      EntryIsTimely(c, call, s, a);
    } else if IsStopAction(a) {
      if a.StopObserved? { StopReadIsTimely(c, call, s); } else { ForceIsTimely(c, call, s, a); }
    } else if a.LateExpired? || a.LateQueryError? || a.JoinReader? {
      JoinIsTimely(c, call, s, a);
    } else if a.Release? || a.Publish? {
      PublishIsTimely(c, call, s, a);
    } else if IsEndAction(a) {
      ReturnIsTimely(c, call, s, a);
    } else {
      OtherActionIsTimely(c, call, s, a);
    }
  }

  lemma {:induction false} RunIsTimely(c: Config, call: Call, s: State, acts: seq<Action>)
    requires Inv(s) && Timely(c, call, s) && CanRun(c, s, acts) && UrgentRun(c, s, acts)
    ensures Timely(c, call, Run(c, s, acts))
    decreases |acts|
  {
    if acts != [] {
      var a := acts[0];
      StepKeepsInv(c, s, a);
      if IsEnvironment(a) {
        EnvironmentIsTimely(c, call, s, a);
      } else {
        PollingIsSafe(s);
        SupervisorIsTimely(c, call, s, a);
      }
      RunIsTimely(c, call, Apply(c, s, a), acts[1..]);
    }
  }

  // ---- The result ----

  /** stop_process has returned. */
  predicate StopReturned(pc: Pc) {
    pc.StoppedTree? || pc.Joining? || pc.Releasing? || AtEnd(Target(pc)) || Target(pc).Publishing?
  }

  /** What a call entered at `t0` with reason `r` and grace period end `graceEnd` has done. */
  predicate Prompt(t0: nat, graceEnd: nat, r: StopReason, s: State) {
    var k := s.core;
    && |k.forces| <= 1
    && (r != ForceKilled && k.forces != [] ==>
          k.forces[0] <= graceEnd && (k.forces[0] < graceEnd ==> k.forceSeen) && k.graceful == 1)
    && (r == ForceKilled && k.forces != [] ==> k.forces[0] == t0 && k.graceful == 0)
    && (!StopReturned(s.pc) && graceEnd < s.env.now ==> |k.forces| == 1)
    && (StopReturned(s.pc) && k.forces == [] ==>
          r != ForceKilled && k.workerSeen && k.treeSeen && k.stopReason == Some(r))
    && (StopReturned(s.pc) && k.forces != [] ==>
          k.stopReason == Some(if k.forceSeen then ForceKilled else r))
  }

  lemma TimelyIsPrompt(c: Config, call: Call, s: State)
    requires Inv(s) && Timely(c, call, s)
    ensures Prompt(call.t0, call.t0 + c.grace, call.r, s)
  {
  }

  /** From any reachable entry of stop_process with reason `r`, along any fault-free urgent run:
      the tree is forced at most once, by the end of the grace period, before it only because
      ForceKilled was read, and then the task ends as force-killed. If it is never forced, the
      worker has been seen to exit and the tree to be empty within that period. A call for
      ForceKilled forces at once and skips the graceful step. */
  lemma StopProcessIsPrompt(c: Config, s0: State, before: seq<Action>, acts: seq<Action>)
    requires IsInit(s0) && CanRun(c, s0, before) && Run(c, s0, before).pc.StopBegin?
    requires CanRun(c, Run(c, s0, before), acts) && UrgentRun(c, Run(c, s0, before), acts)
    ensures var entry := Run(c, s0, before);
            Prompt(entry.env.now, entry.env.now + c.grace, entry.pc.reason, Run(c, entry, acts))
  {
    var entry := Run(c, s0, before);
    var call := Call(entry.env.now, entry.pc.reason);
    InitSafe(s0);
    RunKeepsSafe(c, s0, before);
    RunKeepsSafe(c, entry, acts);
    RunIsTimely(c, call, entry, acts);
    TimelyIsPrompt(c, call, Run(c, entry, acts));
  }

  // ---- A kill during the grace period ----

  /** The tree is forced at time `t`: it has been, or that is what happens next and no time has
      passed. */
  predicate ForcedAt(t: nat, s: State) {
    if s.core.forces == [] then Target(s.pc) == Forcing(ForceKilled) && s.env.now == t else s.core.forces == [t]
  }

  lemma ForceFollows(c: Config, t: nat, s: State, a: Action)
    requires Inv(s) && ForcedAt(t, s) && s.core.forces == [] && FaultFree(a) && !IsEnvironment(a) && SupervisorEnabled(c, s, a)
    ensures ForcedAt(t, ApplySupervisor(c, s, a))
  {
    assert a.PersistOk? || a.CallForce?;
  }

  lemma WaitKeepsForcedAt(c: Config, t: nat, s: State, a: Action)
    requires ForcedAt(t, s) && IsEnvironment(a) && EnvironmentEnabled(s.env, a) && Urgent(c, s, a)
    ensures ForcedAt(t, s.(env := ApplyEnvironment(s.env, a)))
  {
    if s.core.forces == [] {
      NoTimePassesWhenReady(c, s);
      assert !a.Tick?;
    }
  }

  lemma StepKeepsForcedAt(c: Config, t: nat, s: State, a: Action)
    requires Inv(s) && ForcedAt(t, s) && Enabled(c, s, a) && Urgent(c, s, a)
    ensures ForcedAt(t, Apply(c, s, a))
  {
    if IsEnvironment(a) {
      WaitKeepsForcedAt(c, t, s, a);
    } else {
      PollingIsSafe(s);
      StepKeepsInv(c, s, a);
      if s.core.forces == [] { ForceFollows(c, t, s, a); }
    }
  }

  lemma {:induction false} RunKeepsForcedAt(c: Config, t: nat, s: State, acts: seq<Action>)
    requires Inv(s) && ForcedAt(t, s) && CanRun(c, s, acts) && UrgentRun(c, s, acts)
    ensures ForcedAt(t, Run(c, s, acts))
    decreases |acts|
  {
    if acts != [] {
      StepKeepsInv(c, s, acts[0]);
      StepKeepsForcedAt(c, t, s, acts[0]);
      RunKeepsForcedAt(c, t, Apply(c, s, acts[0]), acts[1..]);
    }
  }

  lemma KillBeginsForce(c: Config, s: State)
    requires Inv(s) && PollsForce(s.pc) && s.env.cell == Some(ForceKilled)
    ensures ForcedAt(s.env.now, Apply(c, s, StopObserved))
  {
    PollingIsSafe(s);
    assert s.core.forces == [];
  }

  /** Once time has passed, or stop_process has returned, the tree has been forced at `t`; it is
      forced at no other time. */
  predicate ForcedOnce(t: nat, s: State) {
    && (t < s.env.now || StopReturned(s.pc) ==> s.core.forces == [t])
    && (s.core.forces != [] ==> s.core.forces == [t])
  }

  lemma ForcedAtMoment(t: nat, s: State)
    requires ForcedAt(t, s)
    ensures ForcedOnce(t, s)
  {
  }

  /** A kill read during the grace period forces the tree at the moment of that read: along any
      fault-free urgent run, until that is done no time passes, and it is done exactly once. */
  lemma KillIsPrompt(c: Config, s0: State, before: seq<Action>, acts: seq<Action>)
    requires IsInit(s0) && CanRun(c, s0, before)
    requires PollsForce(Run(c, s0, before).pc) && Run(c, s0, before).env.cell == Some(ForceKilled)
    requires CanRun(c, Apply(c, Run(c, s0, before), StopObserved), acts)
    requires UrgentRun(c, Apply(c, Run(c, s0, before), StopObserved), acts)
    ensures var t := Run(c, s0, before).env.now;
            ForcedOnce(t, Run(c, Apply(c, Run(c, s0, before), StopObserved), acts))
  {
    var s1 := Run(c, s0, before);
    InitSafe(s0);
    RunKeepsSafe(c, s0, before);
    KillBeginsForce(c, s1);
    StepKeepsInv(c, s1, StopObserved);
    RunKeepsForcedAt(c, s1.env.now, Apply(c, s1, StopObserved), acts);
    ForcedAtMoment(s1.env.now, Run(c, Apply(c, s1, StopObserved), acts));
  }
}
