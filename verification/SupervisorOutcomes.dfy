/** Every way for a task to end occurs: for every configuration, every exit status and every reason
    that can be asked for there is a run in which it is seen, obeyed and published; and so with a
    grace period that runs out, a kill during it, and a process tree that outlives the deadline. */
module SupervisorOutcomes {
  import opened TaskModel
  import opened Supervisor
  import opened SupervisorInvariant
  import opened SupervisorProgress
  import T = SupervisorTheorems
  import St = SupervisorStory

  // ---- Runs put together, and their stories ----

  /** `acts` leads from `s` to `end`. */
  predicate Leads(c: Config, s: State, acts: seq<Action>, end: State) {
    CanRun(c, s, acts) && Run(c, s, acts) == end
  }

  lemma {:induction false} Concat(c: Config, s: State, first: seq<Action>, mid: State, rest: seq<Action>, end: State)
    requires Leads(c, s, first, mid) && Leads(c, mid, rest, end)
    ensures Leads(c, s, first + rest, end)
    decreases |first|
  {
    if first == [] {
      assert first + rest == rest;
    } else {
      Concat(c, Apply(c, s, first[0]), first[1..], mid, rest, end);
      assert (first + rest)[1..] == first[1..] + rest;
    }
  }

  lemma {:induction false} StoryConcat(c: Config, s: State, h: seq<St.Event>, first: seq<Action>, mid: State, rest: seq<Action>)
    requires Leads(c, s, first, mid) && CanRun(c, mid, rest) && CanRun(c, s, first + rest)
    ensures St.Story(c, h, s, first + rest) == St.Story(c, St.Story(c, h, s, first), mid, rest)
    decreases |first|
  {
    if first == [] {
      assert first + rest == rest;
    } else {
      assert (first + rest)[1..] == first[1..] + rest;
      StoryConcat(c, Apply(c, s, first[0]), St.Add(h, St.See(s, first[0])), first[1..], mid, rest);
    }
  }

  lemma One(c: Config, s: State, h: seq<St.Event>, a: Action)
    requires Enabled(c, s, a)
    ensures Leads(c, s, [a], Apply(c, s, a)) && St.Story(c, h, s, [a]) == St.Add(h, St.See(s, a))
  {
    assert [a][1..] == [] && CanRun(c, Apply(c, s, a), []);
  }

  /** A healthy task, on a run from `s0` whose story has digest `d`. */
  predicate Here(c: Config, s0: State, acts: seq<Action>, s: State, d: St.Digest) {
    && IsInit(s0) && Leads(c, s0, acts, s) && Healthy(s)
    && d == St.Summary(s0.env.cell, St.StoryOf(c, s0, acts))
  }

  lemma Next(c: Config, s0: State, acts: seq<Action>, s: State, d: St.Digest, a: Action, s': State)
    requires Here(c, s0, acts, s, d) && Enabled(c, s, a) && Apply(c, s, a) == s' && Healthy(s')
    ensures Here(c, s0, acts + [a], s', St.ReadOpt(d, St.See(s, a)))
  {
    var h := St.StoryOf(c, s0, acts);
    One(c, s, h, a);
    Concat(c, s0, acts, s, [a], s');
    StoryConcat(c, s0, [], acts, s, [a]);
    if St.See(s, a).Some? { St.AddRead(s0.env.cell, h, St.See(s, a).value); }
  }

  lemma NextSupervisor(c: Config, s0: State, acts: seq<Action>, s: State, d: St.Digest, a: Action, s': State)
    requires Here(c, s0, acts, s, d) && !IsEnvironment(a) && SupervisorEnabled(c, s, a) && ApplySupervisor(c, s, a) == s'
    requires s'.core.errored == s.core.errored && s'.env.readers == s.env.readers
    ensures Here(c, s0, acts + [a], s', St.ReadOpt(d, St.See(s, a)))
  {
    T.Reachable(c, s0, acts);
    PollingIsSafe(s);
    Next(c, s0, acts, s, d, a, s');
  }

  lemma NextEnvironment(c: Config, s0: State, acts: seq<Action>, s: State, d: St.Digest, a: Action, e: Env)
    requires Here(c, s0, acts, s, d) && IsEnvironment(a) && EnvironmentEnabled(s.env, a) && ApplyEnvironment(s.env, a) == e
    requires e.readers == s.env.readers
    ensures Here(c, s0, acts + [a], s.(env := e), St.ReadOpt(d, St.See(s, a)))
  {
    Next(c, s0, acts, s, d, a, s.(env := e));
  }

  /** Time passes. */
  lemma Waits(c: Config, s0: State, acts: seq<Action>, s: State, d: St.Digest, t: nat) returns (acts': seq<Action>, s': State)
    requires Here(c, s0, acts, s, d)
    ensures Here(c, s0, acts', s', d) && s' == s.(env := s.env.(now := s.env.now + t))
  {
    var e := s.env.(now := s.env.now + t);
    NextEnvironment(c, s0, acts, s, d, Tick(t), e);
    acts', s' := acts + [Tick(t)], s.(env := e);
  }

  /** A stop value is sent. */
  lemma Sends(c: Config, s0: State, acts: seq<Action>, s: State, d: St.Digest, r: StopReason)
    returns (acts': seq<Action>, s': State, d': St.Digest)
    requires Here(c, s0, acts, s, d) && r != Timeout && r != LoggingFailure
    ensures Here(c, s0, acts', s', d') && s' == s.(env := s.env.(cell := Some(r), unseen := true))
    ensures d' == d.(last := Some(r), sent := true)
  {
    var e := s.env.(cell := Some(r), unseen := true);
    NextEnvironment(c, s0, acts, s, d, Request(r), e);
    acts', s', d' := acts + [Request(r)], s.(env := e), d.(last := Some(r), sent := true);
  }

  // ---- The end of a run ----

  /** Plain steps change nothing that has been decided. */
  predicate Unmoved(d: St.Digest, d': St.Digest) {
    && (d.decision != St.Open ==> d'.decision == d.decision)
    && d'.killed == d.killed && d'.overGrace == d.overGrace && d'.overTime == d.overTime
  }

  lemma PlainStepKeeps(cell: Option<StopReason>, h: seq<St.Event>, s: State, a: Action)
    requires Plain(a)
    ensures Unmoved(St.Summary(cell, h), St.Summary(cell, St.Add(h, St.See(s, a))))
  {
    if St.See(s, a).Some? { St.AddRead(cell, h, St.See(s, a).value); }
  }

  lemma {:induction false} PlainKeeps(c: Config, cell: Option<StopReason>, h: seq<St.Event>, s: State, acts: seq<Action>)
    requires CanRun(c, s, acts) && AllPlain(acts)
    ensures Unmoved(St.Summary(cell, h), St.Summary(cell, St.Story(c, h, s, acts)))
    decreases |acts|
  {
    if acts != [] {
      assert Plain(acts[0]);
      PlainStepKeeps(cell, h, s, acts[0]);
      PlainKeeps(c, cell, St.Add(h, St.See(s, acts[0])), Apply(c, s, acts[0]), acts[1..]);
    }
  }

  lemma WorkerStays(c: Config, s: State, a: Action)
    requires Inv(s) && Enabled(c, s, a) && s.env.worker.Some?
    ensures Apply(c, s, a).env.worker == s.env.worker
  {
    if !IsEnvironment(a) {
      PollingIsSafe(s);
      SupervisorStep(c, s, a);
    }
  }

  lemma {:induction false} WorkerExitsOnce(c: Config, s: State, acts: seq<Action>)
    requires CanRun(c, s, acts) && Inv(s) && s.env.worker.Some?
    ensures Run(c, s, acts).env.worker == s.env.worker
    decreases |acts|
  {
    if acts != [] {
      StepKeepsInv(c, s, acts[0]);
      WorkerStays(c, s, acts[0]);
      WorkerExitsOnce(c, Apply(c, s, acts[0]), acts[1..]);
    }
  }

  /** What a published task shows. */
  lemma StatusFollows(s: State)
    requires Safe(s) && s.core.published
    ensures T.StatusMatches(s.core.snap.status, s.core.snap.termination, s.core.snap.exitCode)
    ensures s.env.worker.Some? && s.core.snap.exitCode == s.env.worker.value.code
  {
    T.PublishedIsSettled(s);
    T.AgreesBothWays(s.core.snap);
  }

  lemma SameExpected(d: St.Digest, d': St.Digest)
    requires Unmoved(d, d') && d.decision != St.Open
    ensures St.Expected(d') == St.Expected(d)
  {
  }

  /** A task on which a decision has been taken can be finished and published with the termination
      that its story calls for so far. */
  lemma Concludes(c: Config, s0: State, acts: seq<Action>, s: State, d: St.Digest) returns (acts': seq<Action>, s': State)
    requires Here(c, s0, acts, s, d) && d.decision != St.Open
    ensures Leads(c, s0, acts', s') && Safe(s') && s'.pc.Done? && s'.core.published
    ensures s'.core.snap.termination == St.Expected(d)
    ensures T.StatusMatches(s'.core.snap.status, s'.core.snap.termination, s'.core.snap.exitCode)
    ensures s.env.worker.Some? ==> s'.core.snap.exitCode == s.env.worker.value.code
  {
    var h := St.StoryOf(c, s0, acts);
    T.Reachable(c, s0, acts);
    InitSafe(s0);
    RunCountsReaders(c, s0, acts);
    var rest := Finishes(c, s);
    s' := Run(c, s, rest);
    Concat(c, s0, acts, s, rest, s');
    StoryConcat(c, s0, [], acts, s, rest);
    acts' := acts + rest;
    T.Reachable(c, s0, acts');
    PlainKeeps(c, s0.env.cell, h, s, rest);
    St.TerminationFollowsStory(c, s0, acts');
    SameExpected(d, St.Summary(s0.env.cell, St.StoryOf(c, s0, acts')));
    StatusFollows(s');
    if s.env.worker.Some? { WorkerExitsOnce(c, s, rest); }
  }

  // ---- Up to the main loop ----

  predicate Starting(s: State) {
    s.pc.Capturing? || s.pc.Spawning? || s.pc == Persisting(Selecting)
  }

  /** A task on its way to the main loop, or there, whose worker has not exited. */
  predicate OnTheWay(c: Config, s: State) {
    && Safe(s) && CountsReaders(c, s) && Healthy(s) && s.env.worker.None?
    && (Starting(s) || s.pc.Selecting?)
  }

  lemma StartingShape(c: Config, s: State)
    requires Inv(s) && Starting(s) && Enabled(c, s, NextAction(c, s))
    ensures var s' := Apply(c, s, NextAction(c, s)); s'.env.worker == s.env.worker && (Starting(s') || s'.pc.Selecting?)
  {
    PollingIsSafe(s);
  }

  lemma StartingStep(c: Config, s: State)
    requires OnTheWay(c, s) && Starting(s)
    ensures var a := NextAction(c, s);
            Enabled(c, s, a) && Plain(a) && OnTheWay(c, Apply(c, s, a)) && Closer(c, s, Apply(c, s, a))
  {
    NextStep(c, s);
    StartingShape(c, s);
  }

  lemma {:induction false} ReachesLoop(c: Config, s0: State, acts: seq<Action>, s: State, d: St.Digest)
    returns (acts': seq<Action>, s': State, d': St.Digest)
    requires Here(c, s0, acts, s, d) && OnTheWay(c, s)
    ensures Here(c, s0, acts', s', d') && OnTheWay(c, s') && s'.pc.Selecting?
    decreases Distance(s.pc), Owed(c, s)
  {
    acts', s', d' := acts, s, d;
    if !s.pc.Selecting? {
      var a := NextAction(c, s);
      StartingStep(c, s);
      Next(c, s0, acts, s, d, a, Apply(c, s, a));
      acts', s', d' := ReachesLoop(c, s0, acts + [a], Apply(c, s, a), St.ReadOpt(d, St.See(s, a)));
    }
  }

  /** The main loop: nothing has been decided. */
  lemma InTheLoop(c: Config, s0: State) returns (acts: seq<Action>, s: State, d: St.Digest)
    requires IsInit(s0)
    ensures Here(c, s0, acts, s, d) && s.pc.Selecting? && s.env.worker.None? && s.env.spawned
    ensures d.decision == St.Open && St.Quiet(d)
  {
    InitSafe(s0);
    d := St.Summary(s0.env.cell, []);
    assert Leads(c, s0, [], s0);
    acts, s, d := ReachesLoop(c, s0, [], s0, d);
    St.StoryIsTrue(c, s0, acts);
    SpawnedWhileRunning(s);
    LoopIsQuiet(d, s);
  }

  lemma LoopIsQuiet(d: St.Digest, s: State)
    requires Inv(s) && s.pc.Selecting? && St.VerdictTells(d, s.core, Target(s.pc))
    ensures d.decision == St.Open && St.Quiet(d)
  {
  }

  // ---- Exits ----

  /** The worker has exited by itself and has been seen to. */
  lemma SeesExit(c: Config, s0: State, status: ExitStatus) returns (acts: seq<Action>, s: State, d: St.Digest)
    requires IsInit(s0)
    ensures Here(c, s0, acts, s, d) && s.pc == LateTree && s.env.worker == Some(status)
    ensures d.decision == St.Exit && St.Quiet(d)
  {
    acts, s, d := InTheLoop(c, s0);
    var e := s.env.(worker := Some(status));
    NextEnvironment(c, s0, acts, s, d, WorkerExits(status), e);
    acts, s := acts + [WorkerExits(status)], s.(env := e);
    NextSupervisor(c, s0, acts, s, d, WorkerObserved, ObserveWorker(s));
    d := St.ReadOpt(d, St.See(s, WorkerObserved));
    acts, s := acts + [WorkerObserved], ObserveWorker(s);
  }

  /** Every exit of the worker is published as such. */
  lemma EveryExitWorks(c: Config, s0: State, status: ExitStatus) returns (acts: seq<Action>, s: State)
    requires IsInit(s0)
    ensures Leads(c, s0, acts, s) && s.pc.Done? && s.core.published
    ensures s.core.snap.termination == None && s.core.snap.exitCode == status.code
    ensures s.core.snap.status == if status.code == Some(0) then Succeeded else Failed
  {
    var d;
    acts, s, d := SeesExit(c, s0, status);
    acts, s := Concludes(c, s0, acts, s, d);
  }

  /** The worker has exited, the deadline has passed and the tree is not empty. */
  lemma SeesLateTimeout(c: Config, s0: State) returns (acts: seq<Action>, s: State, d: St.Digest)
    requires IsInit(s0)
    ensures Here(c, s0, acts, s, d) && d.decision == St.Exit && d.overTime && !d.killed
  {
    acts, s, d := SeesExit(c, s0, ExitStatus(Some(0)));
    acts, s := Waits(c, s0, acts, s, d, s.deadline);
    NextSupervisor(c, s0, acts, s, d, LateExpired, LateTimedOut(s));
    d := d.(overTime := true);
    acts, s := acts + [LateExpired], LateTimedOut(s);
  }

  /** A process tree that outlives the deadline is forced, and the task has timed out. */
  lemma LateTimeoutWorks(c: Config, s0: State) returns (acts: seq<Action>, s: State)
    requires IsInit(s0)
    ensures Leads(c, s0, acts, s) && s.pc.Done? && s.core.published
    ensures s.core.snap.status == TimedOut && s.core.snap.termination == Some(Termination(Timeout, false, true))
  {
    var d;
    acts, s, d := SeesLateTimeout(c, s0);
    acts, s := Concludes(c, s0, acts, s, d);
  }

  // ---- Stops ----

  /** The deadline has been seen to pass. */
  lemma SeesDeadline(c: Config, s0: State) returns (acts: seq<Action>, s: State, d: St.Digest)
    requires IsInit(s0)
    ensures Here(c, s0, acts, s, d) && s.pc == StopBegin(Timeout) && s.env.worker.None?
    ensures d.decision == St.Stop(Timeout) && St.Quiet(d)
  {
    acts, s, d := InTheLoop(c, s0);
    acts, s := Waits(c, s0, acts, s, d, s.deadline);
    NextSupervisor(c, s0, acts, s, d, DeadlineHit, s.(pc := StopBegin(Timeout)));
    d := d.(decision := St.Stop(Timeout));
    acts, s := acts + [DeadlineHit], s.(pc := StopBegin(Timeout));
  }

  /** A requested reason has been read. */
  lemma SeesRequest(c: Config, s0: State, r: StopReason) returns (acts: seq<Action>, s: State, d: St.Digest)
    requires IsInit(s0) && r != Timeout && r != LoggingFailure
    ensures Here(c, s0, acts, s, d) && s.pc == StopBegin(r) && s.env.worker.None?
    ensures d.decision == St.Stop(r) && St.Quiet(d)
  {
    acts, s, d := InTheLoop(c, s0);
    acts, s, d := Sends(c, s0, acts, s, d, r);
    var s' := s.(env := s.env.(unseen := false), pc := StopBegin(r));
    assert ObserveStop(s) == s';
    NextSupervisor(c, s0, acts, s, d, StopObserved, s');
    d := d.(decision := St.Stop(r));
    acts, s := acts + [StopObserved], s';
  }

  lemma SeesReason(c: Config, s0: State, r: StopReason) returns (acts: seq<Action>, s: State, d: St.Digest)
    requires IsInit(s0) && r != LoggingFailure
    ensures Here(c, s0, acts, s, d) && s.pc == StopBegin(r) && s.env.worker.None?
    ensures d.decision == St.Stop(r) && St.Quiet(d)
  {
    if r.Timeout? {
      acts, s, d := SeesDeadline(c, s0);
    } else {
      acts, s, d := SeesRequest(c, s0, r);
    }
  }

  /** The status that goes with a reason. */
  function StatusFor(r: StopReason): TaskStatus {
    match r
    case Timeout => TimedOut
    case CancelRequested => Cancelled
    case ForceKilled => Killed
    case LoggingFailure => Failed
    case _ => Interrupted
  }

  /** For every reason but a reader's failure there is a run in which it is seen and obeyed, without
      force unless that is what was asked for, and the task ends with the status that goes with it. */
  lemma EveryStopWorks(c: Config, s0: State, r: StopReason) returns (acts: seq<Action>, s: State)
    requires IsInit(s0) && r != LoggingFailure
    ensures Leads(c, s0, acts, s) && s.pc.Done? && s.core.published && s.core.snap.status == StatusFor(r)
    ensures s.core.snap.termination == Some(Termination(r, !r.ForceKilled?, r.ForceKilled?))
  {
    var d;
    acts, s, d := SeesReason(c, s0, r);
    acts, s := Concludes(c, s0, acts, s, d);
  }

  /** The worker has been asked to end and has not yet. */
  lemma InGracePeriod(c: Config, s0: State, r: StopReason) returns (acts: seq<Action>, s: State, d: St.Digest)
    requires IsInit(s0) && r != LoggingFailure && r != ForceKilled
    ensures Here(c, s0, acts, s, d) && s.pc == GraceWorker(r) && s.env.worker.None?
    ensures d.decision == St.Stop(r) && St.Quiet(d)
  {
    acts, s, d := SeesReason(c, s0, r);
    NextSupervisor(c, s0, acts, s, d, EnterStop, StopEntered(s, r));
    acts, s := acts + [EnterStop], StopEntered(s, r);
    NextSupervisor(c, s0, acts, s, d, PersistOk, Persisted(c, s));
    acts, s := acts + [PersistOk], Persisted(c, s);
    NextSupervisor(c, s0, acts, s, d, SignalGraceful, Signalled(c, s, r));
    acts, s := acts + [SignalGraceful], Signalled(c, s, r);
  }

  /** The grace period has run out. */
  lemma GraceRunsOut(c: Config, s0: State, r: StopReason) returns (acts: seq<Action>, s: State, d: St.Digest)
    requires IsInit(s0) && r != LoggingFailure && r != ForceKilled
    ensures Here(c, s0, acts, s, d) && d.decision == St.Stop(r) && d.overGrace && !d.killed
  {
    acts, s, d := InGracePeriod(c, s0, r);
    acts, s := Waits(c, s0, acts, s, d, s.graceDeadline);
    NextSupervisor(c, s0, acts, s, d, GraceExpired, BeginForce(s, r, true));
    d := d.(overGrace := true);
    acts, s := acts + [GraceExpired], BeginForce(s, r, true);
  }

  /** A grace period can run out; the stop is then carried out by force, for the same reason. */
  lemma GraceCanRunOut(c: Config, s0: State, r: StopReason) returns (acts: seq<Action>, s: State)
    requires IsInit(s0) && r != LoggingFailure && r != ForceKilled
    ensures Leads(c, s0, acts, s) && s.pc.Done? && s.core.published && s.core.snap.status == StatusFor(r)
    ensures s.core.snap.termination == Some(Termination(r, true, true))
  {
    var d;
    acts, s, d := GraceRunsOut(c, s0, r);
    acts, s := Concludes(c, s0, acts, s, d);
  }

  lemma ReadsKill(c: Config, s0: State, acts: seq<Action>, s: State, d: St.Digest)
    returns (acts': seq<Action>, s': State, d': St.Digest)
    requires Here(c, s0, acts, s, d) && s.pc.GraceWorker? && s.env.cell == Some(ForceKilled)
    ensures Here(c, s0, acts', s', d') && d' == d.(killed := true)
  {
    St.KillReadShape(s);
    NextSupervisor(c, s0, acts, s, d, StopObserved, ObserveStop(s));
    acts', s', d' := acts + [StopObserved], ObserveStop(s), d.(killed := true);
  }

  /** A kill has been read during the grace period. */
  lemma SeesKill(c: Config, s0: State, r: StopReason) returns (acts: seq<Action>, s: State, d: St.Digest)
    requires IsInit(s0) && r != LoggingFailure && r != ForceKilled
    ensures Here(c, s0, acts, s, d) && d.decision == St.Stop(r) && d.killed
  {
    acts, s, d := InGracePeriod(c, s0, r);
    acts, s, d := Sends(c, s0, acts, s, d, ForceKilled);
    acts, s, d := ReadsKill(c, s0, acts, s, d);
  }

  /** A kill during the grace period works. */
  lemma KillInGraceWorks(c: Config, s0: State, r: StopReason) returns (acts: seq<Action>, s: State)
    requires IsInit(s0) && r != LoggingFailure && r != ForceKilled
    ensures Leads(c, s0, acts, s) && s.pc.Done? && s.core.published && s.core.snap.status == Killed
    ensures s.core.snap.termination == Some(Termination(ForceKilled, true, true))
  {
    var d;
    acts, s, d := SeesKill(c, s0, r);
    acts, s := Concludes(c, s0, acts, s, d);
  }
}
