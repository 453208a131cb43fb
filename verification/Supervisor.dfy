/** The supervisor of one task (src/process/mod.rs, `start_task`, `run_task`, `stop_process`,
    `wait_for_force_kill`, `force_stop_process`) as a state machine.

    Every await point of the source is a program counter; every `select!` is a free choice
    among the branches that are ready; every `?` may fail. The environment (clients, the
    operating system, the output readers, the clock) moves between any two supervisor steps. */
module Supervisor {
  import opened TaskModel

  datatype Config = Config(maxExecution: nat, grace: nat, readerCount: nat)

  /** One blocking reader. `Reported` has sent LoggingFailure but has not returned yet. */
  datatype Reader = Reading | Reported | ReaderOk | ReaderErr

  datatype Pc =
    | Capturing                           // Capture::new, start_readers
    | Spawning                            // spawn, attach, send the worker specification
    | Persisting(next: Pc)                // TaskRecord::persist inside a transition
    | Selecting                           // the main select! loop
    | StopBegin(reason: StopReason)       // entry of stop_process
    | Signalling(reason: StopReason)      // "terminate" line and tree.graceful()
    | GraceWorker(reason: StopReason)     // first select! of stop_process
    | GraceTree(reason: StopReason)       // second select! of stop_process
    | Forcing(reason: StopReason)         // tree.force() of force_stop_process
    | ForceWorker(reason: StopReason)     // child_wait of force_stop_process
    | ForceTree(reason: StopReason)       // wait_empty of force_stop_process
    | StoppedTree                         // wait_empty after a stop
    | LateTree                            // timed wait_empty after an unrequested exit
    | LateForcing                         // tree.force() after that wait timed out
    | LateEmpty                           // wait_empty after the late force
    | Joining(k: nat)                     // joining output reader k
    | Releasing                           // drop(permits)
    | Publishing                          // the terminal transition
    | Failing                             // run_task returned an error
    | Returned                            // about to call mark_finished
    | Done

  /** What run_task has decided and observed so far. */
  datatype Core = Core(
    snap: TaskSnapshot,
    stopReason: Option<StopReason>,
    exit: Option<ExitStatus>,
    workerSeen: bool,       // the child_wait future has completed
    forceSeen: bool,        // the wait_for_force_kill future has completed
    treeSeen: bool,         // some wait_empty has returned Ok
    graceful: nat,          // calls of tree.graceful()
    forces: seq<nat>,       // times of the calls of tree.force()
    lateQueryFailed: bool,  // wait_empty returned Err inside the timeout of LateTree
    published: bool,        // run_task has written its terminal status
    errored: bool)          // run_task has returned an error

  /** What the rest of the system does: clock, worker, process tree, stop channel, readers. */
  datatype Env = Env(
    now: nat,
    spawned: bool,            // the worker process exists and holds the write ends of the pipes
    worker: Option<ExitStatus>,
    treeEmpty: bool,          // wait_empty would return Ok (on Unix it always does)
    cell: Option<StopReason>, // the watch channel keeps one value; senders overwrite it
    unseen: bool,             // the receiver has not marked that value as seen
    readers: seq<Reader>,
    truncated: bool)

  datatype State = State(
    pc: Pc,
    core: Core,
    env: Env,
    permits: bool,
    log: seq<Line>,
    deadline: nat,
    graceDeadline: nat,
    persistFailed: bool,
    panicked: bool)         // a completed future was polled, or `expect` met None

  /** The state in which `start_task` spawns the supervisor: `create` has persisted the fresh
      snapshot. A stop value sent before `subscribe_stop` is already marked as seen. */
  function Init(snap: TaskSnapshot, cell: Option<StopReason>): State {
    State(Capturing,
          Core(snap, None, None, false, false, false, 0, [], false, false, false),
          Env(0, false, None, false, cell, false, [], false),
          true, [Record(snap)], 0, 0, false, false)
  }

  datatype Action =
    // environment
    | Tick(d: nat)
    | Request(reason: StopReason)
    | WorkerExits(status: ExitStatus)
    | TreeDrains
    | ReaderReports(k: nat)
    | ReaderEnds(k: nat)
    | ReaderCrashes(k: nat)
    | OutputTruncates
    // supervisor
    | OpenReader
    | ReadersOpened
    | Spawn
    | SpecSent(stamp: Timestamp)
    | Fail
    | PersistOk
    | PersistFail(appended: bool)
    | WorkerObserved
    | DeadlineHit
    | StopObserved
    | EnterStop
    | SignalGraceful
    | GraceExpired
    | TreeObserved
    | CallForce
    | LateExpired
    | LateQueryError
    | JoinReader
    | Release
    | Publish(stamp: Timestamp)
    | FailTransition(stamp: Timestamp)
    | MarkFinished

  predicate IsEnvironment(a: Action) {
    a.Tick? || a.Request? || a.WorkerExits? || a.TreeDrains?
    || a.ReaderReports? || a.ReaderEnds? || a.ReaderCrashes? || a.OutputTruncates?
  }

  /** Program counters whose pending call ends in `?`. */
  predicate Fallible(pc: Pc) {
    pc.Capturing? || pc.Spawning? || pc.Selecting? || pc.Signalling? || pc.GraceWorker? || pc.GraceTree?
    || pc.Forcing? || pc.ForceWorker? || pc.ForceTree? || pc.StoppedTree? || pc.LateForcing? || pc.LateEmpty?
  }

  /** Program counters that poll the child_wait future. */
  predicate PollsWorker(pc: Pc) {
    pc.Selecting? || pc.GraceWorker? || pc.ForceWorker?
  }

  /** Program counters that poll the wait_for_force_kill future. */
  predicate PollsForce(pc: Pc) {
    pc.GraceWorker? || pc.GraceTree?
  }

  predicate AllReadersOk(readers: seq<Reader>) {
    forall k :: 0 <= k < |readers| ==> readers[k].ReaderOk?
  }

  predicate EnvironmentEnabled(e: Env, a: Action)
    requires IsEnvironment(a)
  {
    match a
    case Tick(_) => true
    case Request(reason) => !reason.LoggingFailure? && !reason.Timeout?   // those two have no outside sender
    case WorkerExits(_) => e.worker.None? && e.spawned
    case TreeDrains => true
    case ReaderReports(k) => k < |e.readers| && e.readers[k].Reading?
    case ReaderEnds(k) => k < |e.readers| && (e.readers[k].Reading? || e.readers[k].Reported?)
    case ReaderCrashes(k) => k < |e.readers| && e.readers[k].Reading?
    case OutputTruncates => e.spawned && exists k :: 0 <= k < |e.readers| && e.readers[k].Reading?
  }

  function ApplyEnvironment(e: Env, a: Action): Env
    requires IsEnvironment(a) && EnvironmentEnabled(e, a)
  {
    match a
    case Tick(d) => e.(now := e.now + d)
    case Request(reason) => e.(cell := Some(reason), unseen := true)
    case WorkerExits(status) => e.(worker := Some(status))
    case TreeDrains => e.(treeEmpty := true)
    case ReaderReports(k) => e.(readers := e.readers[k := Reported], cell := Some(LoggingFailure), unseen := true)
    case ReaderEnds(k) => e.(readers := e.readers[k := if e.readers[k].Reported? then ReaderErr else ReaderOk])
    case ReaderCrashes(k) => e.(readers := e.readers[k := ReaderErr])
    case OutputTruncates => e.(truncated := true)
  }

  /** The readiness of each supervisor step; several may be ready at once. */
  predicate SupervisorEnabled(c: Config, s: State, a: Action)
    requires !IsEnvironment(a)
  {
    match a
    case OpenReader => s.pc.Capturing? && |s.env.readers| < c.readerCount
    case ReadersOpened => s.pc.Capturing? && |s.env.readers| == c.readerCount
    case Spawn => s.pc.Spawning? && !s.env.spawned
    case SpecSent(_) => s.pc.Spawning? && s.env.spawned
    case Fail => Fallible(s.pc)
    case PersistOk => s.pc.Persisting?
    case PersistFail(_) => s.pc.Persisting?
    case WorkerObserved => PollsWorker(s.pc) && s.env.worker.Some?
    case DeadlineHit => s.pc.Selecting? && s.deadline <= s.env.now
    case StopObserved =>
      if s.pc.Selecting? then s.env.unseen
      else PollsForce(s.pc) && (s.env.unseen || s.env.cell == Some(ForceKilled))
    case EnterStop => s.pc.StopBegin?
    case SignalGraceful => s.pc.Signalling?
    case GraceExpired =>
      // timeout_at polls the inner future first: a worker that has exited wins over the timer
      s.graceDeadline <= s.env.now && (s.pc.GraceTree? || (s.pc.GraceWorker? && s.env.worker.None?))
    case TreeObserved =>
      && s.env.treeEmpty
      && (s.pc.GraceTree? || s.pc.ForceTree? || s.pc.StoppedTree? || s.pc.LateTree? || s.pc.LateEmpty?)
    case CallForce => s.pc.Forcing? || s.pc.LateForcing?
    case LateExpired => s.pc.LateTree? && s.deadline <= s.env.now
    case LateQueryError => s.pc.LateTree?
    case JoinReader =>
      && s.pc.Joining?
      && (s.pc.k < |s.env.readers| ==> s.env.readers[s.pc.k].ReaderOk? || s.env.readers[s.pc.k].ReaderErr?)
    case Release => s.pc.Releasing?
    case Publish(_) => s.pc.Publishing?
    case FailTransition(_) => s.pc.Failing?
    case MarkFinished => s.pc.Returned?
  }

  predicate Enabled(c: Config, s: State, a: Action) {
    if IsEnvironment(a) then EnvironmentEnabled(s.env, a) else SupervisorEnabled(c, s, a)
  }

  /** run_task returns Err: its locals, and with them the permits, are dropped. */
  function Abort(s: State): State {
    s.(pc := Failing, permits := false, core := s.core.(errored := true))
  }

  /** The in-memory half of `transition`; persisting follows. */
  function Update(s: State, snap: TaskSnapshot, next: Pc): State {
    s.(core := s.core.(snap := snap.(outputTruncated := s.env.truncated)), pc := Persisting(next))
  }

  /** The line that `persist` appends. */
  function CurrentLine(s: State): Line {
    Record(s.core.snap.(outputTruncated := s.env.truncated))
  }

  function MarkStopping(snap: TaskSnapshot, reason: StopReason, graceful: bool, forced: bool): TaskSnapshot {
    snap.(status := Stopping, termination := Some(Termination(reason, graceful, forced)))
  }

  /** Entry of force_stop_process. */
  function BeginForce(s: State, reason: StopReason, gracefulAttempted: bool): State {
    Update(s, MarkStopping(s.core.snap, reason, gracefulAttempted, true), Forcing(reason))
  }

  /** The terminal status chosen by run_task. */
  function FinalStatus(stopReason: Option<StopReason>, exit: Option<ExitStatus>): TaskStatus {
    match stopReason
    case Some(Timeout) => TimedOut
    case Some(CancelRequested) => Cancelled
    case Some(ForceKilled) => Killed
    case Some(LoggingFailure) => Failed
    case Some(_) => Interrupted
    case None => if exit.Some? && exit.value.Success() then Succeeded else Failed
  }

  function FinalSnapshot(core: Core, stamp: Timestamp): TaskSnapshot {
    var status := FinalStatus(core.stopReason, core.exit);
    var code := if core.exit.Some? then core.exit.value.code else None;
    core.snap.(status := status,
               finishedAt := Some(stamp),
               exitCode := code,
               error := if status.Failed? && core.snap.error.None?
                        then Some(if core.stopReason == Some(LoggingFailure) then LogWriteFailed else NonZeroExit(code))
                        else core.snap.error)
  }

  /** The guarded update of start_task after run_task has failed. */
  function FailedSnapshot(snap: TaskSnapshot, stamp: Timestamp): TaskSnapshot {
    if IsFinished(snap.status) then snap
    else snap.(status := Failed, finishedAt := Some(stamp), error := Some(SupervisorError))
  }

  function Persisted(c: Config, s: State): State
    requires s.pc.Persisting?
  {
    s.(log := s.log + [CurrentLine(s)],
       deadline := if s.pc.next.Selecting? then s.env.now + c.maxExecution else s.deadline,
       pc := s.pc.next)
  }

  /** `start_task` ignores a failure to persist its own update; run_task propagates one. */
  function PersistFailed(s: State, appended: bool): State
    requires s.pc.Persisting?
  {
    var failed := s.(persistFailed := true, log := if appended then s.log + [CurrentLine(s)] else s.log);
    if s.core.errored then failed.(pc := s.pc.next) else Abort(failed)
  }

  function ObserveWorker(s: State): State {
    s.(core := s.core.(workerSeen := true, exit := s.env.worker),
       pc := match s.pc
             case GraceWorker(reason) => GraceTree(reason)
             case ForceWorker(reason) => ForceTree(reason)
             case _ => LateTree)
  }

  function ObserveStop(s: State): State {
    var read := s.(env := s.env.(unseen := false));
    if s.pc.Selecting? then
      if s.env.cell.Some? then read.(pc := StopBegin(s.env.cell.value)) else read
    else if s.env.cell == Some(ForceKilled) then
      BeginForce(read.(core := read.core.(forceSeen := true)), ForceKilled, true)
    else read
  }

  function ObserveTree(s: State): State {
    match s.pc
    case GraceTree(reason) =>
      // tree_stopped: the worker status is taken with `expect`
      s.(core := s.core.(treeSeen := true, stopReason := Some(reason)),
         panicked := s.panicked || s.core.exit.None?,
         pc := StoppedTree)
    case ForceTree(reason) =>
      s.(core := s.core.(treeSeen := true, stopReason := Some(reason)), pc := StoppedTree)
    case _ =>
      s.(core := s.core.(treeSeen := true), pc := Joining(0))
  }

  function ForceCalled(s: State): State {
    var forced := s.(core := s.core.(forces := s.core.forces + [s.env.now]));
    match s.pc
    case Forcing(reason) => forced.(pc := if s.core.exit.Some? then ForceTree(reason) else ForceWorker(reason))
    case _ => Update(forced, MarkStopping(s.core.snap, Timeout, false, true), LateEmpty)
  }

  function ReaderJoined(s: State): State
    requires s.pc.Joining?
  {
    var k := s.pc.k;
    if k == |s.env.readers| then s.(pc := Releasing)
    else if k < |s.env.readers| && s.env.readers[k].ReaderOk? then s.(pc := Joining(k + 1))
    else Abort(s)
  }

  function ReaderOpened(s: State): State {
    s.(env := s.env.(readers := s.env.readers + [Reading]))
  }

  function WorkerSpawned(s: State): State {
    s.(env := s.env.(spawned := true))
  }

  function Started(s: State, stamp: Timestamp): State {
    Update(s, s.core.snap.(status := Running, startedAt := Some(stamp)), Selecting)
  }

  function StopEntered(s: State, reason: StopReason): State {
    if reason.ForceKilled? then BeginForce(s, ForceKilled, false)
    else Update(s, MarkStopping(s.core.snap, reason, true, false), Signalling(reason))
  }

  function Signalled(c: Config, s: State, reason: StopReason): State {
    s.(core := s.core.(graceful := s.core.graceful + 1),
       graceDeadline := s.env.now + c.grace,
       pc := GraceWorker(reason))
  }

  function LateTimedOut(s: State): State {
    s.(core := s.core.(stopReason := Some(Timeout)), pc := LateForcing)
  }

  /** `timeout(..).is_err()` looks at the timer only: an error of wait_empty is dropped. */
  function LateErrorIgnored(s: State): State {
    s.(core := s.core.(lateQueryFailed := true), pc := Joining(0))
  }

  function Published(s: State, stamp: Timestamp): State {
    Update(s.(core := s.core.(published := true)), FinalSnapshot(s.core, stamp), Returned)
  }

  function ApplySupervisor(c: Config, s: State, a: Action): State
    requires !IsEnvironment(a) && SupervisorEnabled(c, s, a)
  {
    match a
    case OpenReader => ReaderOpened(s)
    case ReadersOpened => s.(pc := Spawning)
    case Spawn => WorkerSpawned(s)
    case SpecSent(stamp) => Started(s, stamp)
    case Fail => Abort(s)
    case PersistOk => Persisted(c, s)
    case PersistFail(appended) => PersistFailed(s, appended)
    case WorkerObserved => ObserveWorker(s)
    case DeadlineHit => s.(pc := StopBegin(Timeout))
    case StopObserved => ObserveStop(s)
    case EnterStop => StopEntered(s, s.pc.reason)
    case SignalGraceful => Signalled(c, s, s.pc.reason)
    case GraceExpired => BeginForce(s, s.pc.reason, true)
    case TreeObserved => ObserveTree(s)
    case CallForce => ForceCalled(s)
    case LateExpired => LateTimedOut(s)
    case LateQueryError => LateErrorIgnored(s)
    case JoinReader => ReaderJoined(s)
    case Release => s.(permits := false, pc := Publishing)
    case Publish(stamp) => Published(s, stamp)
    case FailTransition(stamp) => Update(s, FailedSnapshot(s.core.snap, stamp), Returned)
    case MarkFinished => s.(pc := Done)
  }

  /** A supervisor step polls the futures of its program counter; polling one that has
      completed panics. */
  function Polled(s: State): State {
    s.(panicked := s.panicked
                   || (PollsWorker(s.pc) && s.core.workerSeen)
                   || (PollsForce(s.pc) && s.core.forceSeen))
  }

  function Apply(c: Config, s: State, a: Action): State
    requires Enabled(c, s, a)
  {
    if IsEnvironment(a) then s.(env := ApplyEnvironment(s.env, a))
    else ApplySupervisor(c, Polled(s), a)
  }

  // ---- Runs ----

  predicate CanRun(c: Config, s: State, acts: seq<Action>)
    decreases |acts|
  {
    acts == [] || (Enabled(c, s, acts[0]) && CanRun(c, Apply(c, s, acts[0]), acts[1..]))
  }

  function Run(c: Config, s: State, acts: seq<Action>): State
    requires CanRun(c, s, acts)
    decreases |acts|
  {
    if acts == [] then s else Run(c, Apply(c, s, acts[0]), acts[1..])
  }

  /** The initial states of the property statements: any fresh task, any stop value that an
      outside sender had sent before the supervisor subscribed. */
  predicate IsInit(s: State) {
    && IsFresh(s.core.snap) && s == Init(s.core.snap, s.env.cell)
    && s.env.cell != Some(LoggingFailure) && s.env.cell != Some(Timeout)
  }
}
