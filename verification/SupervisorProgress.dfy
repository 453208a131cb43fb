/** The supervisor is never stuck: from every reachable state, whatever has failed so far, it can
    finish without any further fault; and a task that nothing has failed for can be published. */
module SupervisorProgress {
  import opened TaskModel
  import opened Supervisor
  import opened SupervisorInvariant

  predicate FaultFree(a: Action) {
    !a.Fail? && !a.PersistFail? && !a.LateQueryError? && !a.ReaderReports? && !a.ReaderCrashes?
  }

  /** No request, no read of the stop channel, no timer. */
  predicate Plain(a: Action) {
    && FaultFree(a) && !a.Request? && !a.StopObserved? && !a.Tick?
    && !a.DeadlineHit? && !a.GraceExpired? && !a.LateExpired?
  }

  /** The next step of a run that goes well: the worker exits, the tree drains, readers end. */
  function NextAction(c: Config, s: State): Action {
    match s.pc
    case Capturing => if |s.env.readers| < c.readerCount then OpenReader else ReadersOpened
    case Spawning => if s.env.spawned then SpecSent(0) else Spawn
    case Persisting(_) => PersistOk
    case Selecting => WorkerStep(s.env)
    case StopBegin(_) => EnterStop
    case Signalling(_) => SignalGraceful
    case GraceWorker(_) => WorkerStep(s.env)
    case GraceTree(_) => TreeStep(s.env)
    case Forcing(_) => CallForce
    case ForceWorker(_) => WorkerStep(s.env)
    case ForceTree(_) => TreeStep(s.env)
    case StoppedTree => TreeStep(s.env)
    case LateTree => TreeStep(s.env)
    case LateForcing => CallForce
    case LateEmpty => TreeStep(s.env)
    case Joining(k) => if Unended(s.env.readers, k) then ReaderEnds(k) else JoinReader
    case Releasing => Release
    case Publishing => Publish(0)
    case Failing => FailTransition(0)
    case Returned => MarkFinished
    case Done => MarkFinished
  }

  function WorkerStep(e: Env): Action {
    if e.worker.Some? then WorkerObserved else WorkerExits(ExitStatus(Some(0)))
  }

  function TreeStep(e: Env): Action {
    if e.treeEmpty then TreeObserved else TreeDrains
  }

  predicate Unended(readers: seq<Reader>, k: nat) {
    k < |readers| && (readers[k].Reading? || readers[k].Reported?)
  }

  // ---- What the steps lead to ----

  /** How far the program counter is from the end. */
  function Distance(pc: Pc): nat {
    match pc
    case Capturing => 20
    case Spawning => 19
    case Persisting(next) =>
      if next.Selecting? then 18 else if next.Signalling? || next.Forcing? then 15 else if next.LateEmpty? then 9 else 3
    case Selecting => 17
    case StopBegin(_) => 16
    case Signalling(_) => 14
    case GraceWorker(_) => 13
    case GraceTree(_) => 12
    case Forcing(_) => 14
    case ForceWorker(_) => 13
    case ForceTree(_) => 12
    case StoppedTree => 8
    case LateTree => 11
    case LateForcing => 10
    case LateEmpty => 8
    case Joining(_) => 6
    case Releasing => 5
    case Publishing => 4
    case Failing => 4
    case Returned => 2
    case Done => 0
  }

  /** What the environment still owes at this program counter. */
  function Owed(c: Config, s: State): nat {
    match s.pc
    case Capturing => if |s.env.readers| < c.readerCount then c.readerCount - |s.env.readers| else 0
    case Spawning => if s.env.spawned then 0 else 1
    case Joining(k) =>
      (if k < |s.env.readers| then 2 * (|s.env.readers| - k) else 0) + (if Unended(s.env.readers, k) then 1 else 0)
    case _ => (if s.env.worker.Some? then 0 else 1) + (if s.env.treeEmpty then 0 else 1)
  }

  /** No more readers than streams are opened. */
  predicate CountsReaders(c: Config, s: State) {
    s.pc.Capturing? ==> |s.env.readers| <= c.readerCount
  }

  predicate Closer(c: Config, s: State, s': State) {
    Distance(s'.pc) < Distance(s.pc) || (Distance(s'.pc) == Distance(s.pc) && Owed(c, s') < Owed(c, s))
  }

  /** Closer to the end, without failing unless a reader is joined. */
  predicate Advances(c: Config, s: State, s': State) {
    Closer(c, s, s') && CountsReaders(c, s') && (s'.core.errored ==> s.core.errored || s.pc.Joining?)
  }

  /** A step that is ready, plain, and leads closer to the end. */
  predicate GoodChoice(c: Config, s: State, a: Action) {
    Enabled(c, s, a) && Plain(a) && Advances(c, s, Apply(c, s, a))
  }

  /** The environment moves. */
  lemma EnvironmentIsGood(c: Config, s: State, a: Action)
    requires CountsReaders(c, s) && Plain(a) && (a.WorkerExits? || a.TreeDrains? || a.ReaderEnds?)
    requires EnvironmentEnabled(s.env, a) && Owed(c, s.(env := ApplyEnvironment(s.env, a))) < Owed(c, s)
    requires |ApplyEnvironment(s.env, a).readers| == |s.env.readers|
    ensures GoodChoice(c, s, a)
  {
  }

  /** The supervisor moves. */
  lemma SupervisorIsGood(c: Config, s: State, a: Action, s': State)
    requires Polled(s) == s
    requires Plain(a) && !IsEnvironment(a) && SupervisorEnabled(c, s, a) && ApplySupervisor(c, s, a) == s'
    requires Advances(c, s, s')
    ensures GoodChoice(c, s, a)
  {
  }

  lemma StartIsGood(c: Config, s: State)
    requires CountsReaders(c, s) && (s.pc.Capturing? || s.pc.Spawning?)
    ensures GoodChoice(c, s, NextAction(c, s))
  {
    match NextAction(c, s)
    case OpenReader => SupervisorIsGood(c, s, OpenReader, ReaderOpened(s));
    case ReadersOpened => SupervisorIsGood(c, s, ReadersOpened, s.(pc := Spawning));
    case Spawn => SupervisorIsGood(c, s, Spawn, WorkerSpawned(s));
    case SpecSent(stamp) => SupervisorIsGood(c, s, SpecSent(stamp), Started(s, stamp));
  }

  lemma PersistIsGood(c: Config, s: State)
    requires Inv(s) && s.pc.Persisting?
    ensures GoodChoice(c, s, PersistOk)
  {
    SupervisorIsGood(c, s, PersistOk, Persisted(c, s));
  }

  lemma SpawnedWhileRunning(s: State)
    requires Inv(s) && PollsWorker(s.pc)
    ensures s.env.spawned
  {
  }

  lemma WorkerIsGood(c: Config, s: State)
    requires Inv(s) && PollsWorker(s.pc)
    ensures GoodChoice(c, s, NextAction(c, s))
  {
    if s.env.worker.Some? {
      PollingIsSafe(s);
      SupervisorIsGood(c, s, WorkerObserved, ObserveWorker(s));
    } else {
      SpawnedWhileRunning(s);
      EnvironmentIsGood(c, s, NextAction(c, s));
    }
  }

  lemma TreeIsGood(c: Config, s: State)
    requires Inv(s) && (s.pc.GraceTree? || s.pc.ForceTree? || s.pc.StoppedTree? || s.pc.LateTree? || s.pc.LateEmpty?)
    ensures GoodChoice(c, s, NextAction(c, s))
  {
    if s.env.treeEmpty {
      PollingIsSafe(s);
      SupervisorIsGood(c, s, TreeObserved, ObserveTree(s));
    } else {
      EnvironmentIsGood(c, s, NextAction(c, s));
    }
  }

  lemma StopIsGood(c: Config, s: State)
    requires s.pc.StopBegin? || s.pc.Signalling?
    ensures GoodChoice(c, s, NextAction(c, s))
  {
    if s.pc.StopBegin? {
      SupervisorIsGood(c, s, EnterStop, StopEntered(s, s.pc.reason));
    } else {
      SupervisorIsGood(c, s, SignalGraceful, Signalled(c, s, s.pc.reason));
    }
  }

  lemma ForceIsGood(c: Config, s: State)
    requires s.pc.Forcing? || s.pc.LateForcing?
    ensures GoodChoice(c, s, CallForce)
  {
    SupervisorIsGood(c, s, CallForce, ForceCalled(s));
  }

  lemma JoinAdvances(c: Config, s: State)
    requires s.pc.Joining?
    ensures Advances(c, s, ReaderJoined(s))
  {
  }

  lemma JoinIsGood(c: Config, s: State)
    requires s.pc.Joining?
    ensures GoodChoice(c, s, NextAction(c, s))
  {
    if Unended(s.env.readers, s.pc.k) {
      EnvironmentIsGood(c, s, ReaderEnds(s.pc.k));
    } else {
      JoinAdvances(c, s);
      SupervisorIsGood(c, s, JoinReader, ReaderJoined(s));
    }
  }

  lemma EndIsGood(c: Config, s: State)
    requires s.pc.Releasing? || s.pc.Publishing?
    ensures GoodChoice(c, s, NextAction(c, s))
  {
    if s.pc.Releasing? {
      SupervisorIsGood(c, s, Release, s.(permits := false, pc := Publishing));
    } else {
      SupervisorIsGood(c, s, Publish(0), Published(s, 0));
    }
  }

  lemma FailingIsGood(c: Config, s: State)
    requires s.pc.Failing?
    ensures GoodChoice(c, s, NextAction(c, s))
  {
    SupervisorIsGood(c, s, FailTransition(0), Update(s, FailedSnapshot(s.core.snap, 0), Returned));
  }

  lemma ReturnIsGood(c: Config, s: State)
    requires s.pc.Returned?
    ensures GoodChoice(c, s, NextAction(c, s))
  {
    SupervisorIsGood(c, s, MarkFinished, s.(pc := Done));
  }

  lemma NextIsGood(c: Config, s: State)
    requires Inv(s) && CountsReaders(c, s) && !s.pc.Done?
    ensures GoodChoice(c, s, NextAction(c, s))
  {
    if s.pc.Capturing? || s.pc.Spawning? {
      StartIsGood(c, s);
    } else if s.pc.Persisting? {
      PersistIsGood(c, s);
    } else if PollsWorker(s.pc) {
      WorkerIsGood(c, s);
    } else if s.pc.GraceTree? || s.pc.ForceTree? || s.pc.StoppedTree? || s.pc.LateTree? || s.pc.LateEmpty? {
      TreeIsGood(c, s);
    } else if s.pc.StopBegin? || s.pc.Signalling? {
      StopIsGood(c, s);
    } else if s.pc.Forcing? || s.pc.LateForcing? {
      ForceIsGood(c, s);
    } else if s.pc.Joining? {
      JoinIsGood(c, s);
    } else if s.pc.Releasing? || s.pc.Publishing? {
      EndIsGood(c, s);
    } else if s.pc.Failing? {
      FailingIsGood(c, s);
    } else {
      ReturnIsGood(c, s);
    }
  }

  // ---- Health ----

  /** Nothing has failed for this task. */
  predicate Healthy(s: State) {
    !s.core.errored && !ReaderBroken(s.env.readers)
  }

  lemma EnvironmentKeepsReaders(e: Env, a: Action)
    requires IsEnvironment(a) && EnvironmentEnabled(e, a) && FaultFree(a) && !ReaderBroken(e.readers)
    ensures !ReaderBroken(ApplyEnvironment(e, a).readers)
  {
    if a.ReaderEnds? { assert e.readers[a.k].Reading?; }
  }

  lemma JoinKeepsHealth(s: State)
    requires s.pc.Joining? && s.pc.k <= |s.env.readers| && Healthy(s) && !Unended(s.env.readers, s.pc.k)
    ensures Healthy(ReaderJoined(s))
  {
  }

  lemma SupervisorKeepsHealth(c: Config, s: State, a: Action)
    requires Safe(s) && Healthy(s) && a == NextAction(c, s) && !IsEnvironment(a) && SupervisorEnabled(c, s, a)
    requires Advances(c, s, ApplySupervisor(c, s, a))
    ensures Healthy(ApplySupervisor(c, s, a))
  {
    if a.JoinReader? {
      JoinKeepsHealth(s);
    } else {
      SupervisorStep(c, s, a);
      assert JoinRule(s, ApplySupervisor(c, s, a));
    }
  }

  lemma NextKeepsHealth(c: Config, s: State)
    requires Safe(s) && Healthy(s) && GoodChoice(c, s, NextAction(c, s))
    ensures Healthy(Apply(c, s, NextAction(c, s)))
  {
    var a := NextAction(c, s);
    if IsEnvironment(a) {
      EnvironmentKeepsReaders(s.env, a);
    } else {
      PollingIsSafe(s);
      SupervisorKeepsHealth(c, s, a);
    }
  }

  // ---- The result ----

  predicate AllPlain(acts: seq<Action>) {
    forall i :: 0 <= i < |acts| ==> Plain(acts[i])
  }

  lemma DoneIsPublished(s: State)
    requires Safe(s) && s.pc.Done?
    ensures s.core.published || s.core.errored
  {
  }

  /** This continuation is plain and ends, with a published status if nothing has failed. */
  predicate EndsWell(c: Config, s: State, more: seq<Action>) {
    && CanRun(c, s, more) && AllPlain(more) && Run(c, s, more).pc.Done?
    && (Healthy(s) ==> Run(c, s, more).core.published)
  }

  lemma StepEndsWell(c: Config, s: State, a: Action, rest: seq<Action>)
    requires Enabled(c, s, a) && Plain(a) && EndsWell(c, Apply(c, s, a), rest)
    requires Healthy(s) ==> Healthy(Apply(c, s, a))
    ensures EndsWell(c, s, [a] + rest)
  {
    assert ([a] + rest)[1..] == rest;
  }

  lemma NextStep(c: Config, s: State)
    requires Safe(s) && CountsReaders(c, s) && !s.pc.Done?
    ensures var a := NextAction(c, s);
            && Enabled(c, s, a) && Plain(a) && Safe(Apply(c, s, a)) && CountsReaders(c, Apply(c, s, a))
            && Closer(c, s, Apply(c, s, a)) && (Healthy(s) ==> Healthy(Apply(c, s, a)))
  {
    NextIsGood(c, s);
    StepKeepsSafe(c, s, NextAction(c, s));
    if Healthy(s) { NextKeepsHealth(c, s); }
  }

  lemma {:induction false} Finishes(c: Config, s: State) returns (more: seq<Action>)
    requires Safe(s) && CountsReaders(c, s)
    ensures EndsWell(c, s, more)
    decreases Distance(s.pc), Owed(c, s)
  {
    more := [];
    if s.pc.Done? {
      DoneIsPublished(s);
      assert CanRun(c, s, []) && Run(c, s, []) == s;
    } else {
      NextStep(c, s);
      var rest := Finishes(c, Apply(c, s, NextAction(c, s)));
      more := [NextAction(c, s)] + rest;
      StepEndsWell(c, s, NextAction(c, s), rest);
    }
  }

  lemma StaysCapturing(c: Config, s: State, a: Action)
    requires s.pc.Persisting? ==> FollowsTransition(s.pc.next)
    requires !IsEnvironment(a) && SupervisorEnabled(c, s, a) && ApplySupervisor(c, s, a).pc.Capturing?
    ensures a.OpenReader?
  {
  }

  lemma StepCountsReaders(c: Config, s: State, a: Action)
    requires Inv(s) && CountsReaders(c, s) && Enabled(c, s, a)
    ensures CountsReaders(c, Apply(c, s, a))
  {
    if IsEnvironment(a) {
      EnvironmentAdvances(s.env, a);
    } else {
      PollingIsSafe(s);
      if ApplySupervisor(c, s, a).pc.Capturing? { StaysCapturing(c, s, a); }
    }
  }

  lemma {:induction false} RunCountsReaders(c: Config, s: State, acts: seq<Action>)
    requires Inv(s) && CountsReaders(c, s) && CanRun(c, s, acts)
    ensures CountsReaders(c, Run(c, s, acts))
    decreases |acts|
  {
    if acts != [] {
      StepKeepsInv(c, s, acts[0]);
      StepCountsReaders(c, s, acts[0]);
      RunCountsReaders(c, Apply(c, s, acts[0]), acts[1..]);
    }
  }

  /** From every state of every run, whatever was requested, timed out or failed before, the
      supervisor can reach its end without a further fault, request or timer; and if nothing has
      failed so far, run_task then publishes a status. */
  lemma CanAlwaysFinish(c: Config, s0: State, acts: seq<Action>) returns (more: seq<Action>)
    requires IsInit(s0) && CanRun(c, s0, acts)
    ensures EndsWell(c, Run(c, s0, acts), more)
  {
    InitSafe(s0);
    RunKeepsSafe(c, s0, acts);
    RunCountsReaders(c, s0, acts);
    more := Finishes(c, Run(c, s0, acts));
  }
}
