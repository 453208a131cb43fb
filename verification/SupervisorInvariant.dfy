/** The inductive invariant of the supervisor and the safety results that hold over every
    run: any interleaving of clients, readers, clock and process events, any injected failure. */
module SupervisorInvariant {
  import opened TaskModel
  import opened Supervisor

  // ---- The invariant ----

  /** Where the supervisor stands, seen through a pending persist. */
  function Target(pc: Pc): Pc {
    if pc.Persisting? then pc.next else pc
  }

  /** The stop reason that a program counter carries. */
  function Carried(pc: Pc): Option<StopReason> {
    if pc.StopBegin? || pc.Signalling? || pc.GraceWorker? || pc.GraceTree? || pc.Forcing? || pc.ForceWorker? || pc.ForceTree?
    then Some(pc.reason) else None
  }

  predicate Untouched(k: Core) {
    && !k.workerSeen && !k.forceSeen && !k.treeSeen && k.exit == None
    && k.stopReason == None && k.forces == [] && k.graceful == 0
    && k.snap.termination == None && !k.lateQueryFailed
  }

  predicate InGrace(k: Core, r: StopReason) {
    && k.snap.status == Stopping && k.snap.termination == Some(Termination(r, true, false))
    && !k.lateQueryFailed && r != ForceKilled && k.stopReason == None && !k.forceSeen && k.forces == []
  }

  predicate InForce(k: Core, r: StopReason) {
    && k.snap.status == Stopping && k.snap.termination.Some? && !k.lateQueryFailed && k.stopReason == None
    && k.snap.termination.value.reason == r && k.snap.termination.value.forced
    && k.graceful == (if k.snap.termination.value.gracefulAttempted then 1 else 0)
    && (!k.snap.termination.value.gracefulAttempted ==> r == ForceKilled)
    && (k.forceSeen ==> r == ForceKilled)
    && (k.workerSeen <==> k.exit.Some?)
  }

  /** The termination that run_task has recorded agrees with the reason it acts on. */
  predicate Settled(k: Core) {
    && k.exit.Some? && k.workerSeen && |k.forces| <= 1
    && match k.stopReason
       case None => k.snap.termination == None && k.snap.status == Running && k.forces == [] && k.graceful == 0
       case Some(r) => SettledBy(k, r)
  }

  predicate SettledBy(k: Core, r: StopReason) {
    && k.snap.termination.Some? && k.snap.status == Stopping && !k.lateQueryFailed
    && var t := k.snap.termination.value;
    && t.reason == r
    && (t.forced <==> |k.forces| == 1)
    && (r == ForceKilled ==> t.forced)
    && k.graceful == (if t.gracefulAttempted then 1 else 0)
    && (!t.gracefulAttempted ==> r == ForceKilled || r == Timeout)
  }

  predicate AtPc(k: Core, pc: Pc) {
    match pc
    case Capturing => Untouched(k) && k.snap.status == Starting
    case Spawning => Untouched(k) && k.snap.status == Starting
    case Persisting(_) => false
    case Selecting => Untouched(k) && k.snap.status == Running
    case StopBegin(r) => Untouched(k) && k.snap.status == Running
    case Signalling(r) => InGrace(k, r) && k.graceful == 0 && !k.workerSeen && k.exit == None
    case GraceWorker(r) => InGrace(k, r) && k.graceful == 1 && !k.workerSeen && k.exit == None
    case GraceTree(r) => InGrace(k, r) && k.graceful == 1 && k.workerSeen && k.exit.Some?
    case Forcing(r) => InForce(k, r) && k.forces == []
    case ForceWorker(r) => InForce(k, r) && |k.forces| == 1 && k.exit == None
    case ForceTree(r) => InForce(k, r) && |k.forces| == 1 && k.exit.Some?
    case StoppedTree => Settled(k) && k.stopReason.Some?
    case LateTree => Settled(k) && k.stopReason == None && !k.lateQueryFailed && !k.treeSeen
    case LateForcing =>
      && k.exit.Some? && k.workerSeen && k.stopReason == Some(Timeout) && k.graceful == 0 && k.forces == []
      && k.snap.termination == None && k.snap.status == Running && !k.lateQueryFailed
    case LateEmpty => Settled(k) && k.stopReason == Some(Timeout)
    case Joining(_) => Settled(k) && (k.treeSeen || k.lateQueryFailed)
    case Releasing => Settled(k) && (k.treeSeen || k.lateQueryFailed)
    case Publishing => Settled(k) && (k.treeSeen || k.lateQueryFailed)
    case Failing => k.errored && (k.published || !IsFinished(k.snap.status))
    case Returned => k.published || (k.errored && k.snap.status == Failed)
    case Done => k.published || (k.errored && k.snap.status == Failed)
  }

  predicate ByService(reason: StopReason) {
    reason.ServerShutdown? || reason.ServerRestart? || reason.ParentExited?
  }

  /** The terminal status of a task and its recorded termination tell the same story. */
  predicate Agrees(snap: TaskSnapshot) {
    match snap.status
    case Succeeded => snap.termination == None && snap.exitCode == Some(0) && snap.error == None
    case Failed => snap.termination == None && snap.exitCode != Some(0) && snap.error == Some(NonZeroExit(snap.exitCode))
    case TimedOut => snap.termination.Some? && snap.termination.value.reason == Timeout
    case Cancelled => snap.termination.Some? && snap.termination.value.reason == CancelRequested
    case Killed => snap.termination.Some? && snap.termination.value.reason == ForceKilled && snap.termination.value.forced
    case Interrupted =>
      snap.termination.Some? && ByService(snap.termination.value.reason)
    case _ => false
  }

  predicate PublishedFacts(k: Core) {
    && IsFinished(k.snap.status)
    && (k.stopReason != Some(LoggingFailure) ==> Agrees(k.snap))
    && (k.snap.status.TimedOut? ==> k.stopReason == Some(Timeout))
    && (k.treeSeen || k.lateQueryFailed)
    && k.exit.Some? && k.snap.exitCode == k.exit.value.code
    && (k.snap.termination.Some? ==>
          && !k.lateQueryFailed
          && (k.snap.termination.value.forced <==> |k.forces| == 1)
          && (k.snap.termination.value.gracefulAttempted <==> k.graceful == 1))
  }

  /** The last stretch of the supervisor, in which the status may be terminal. */
  predicate AtEnd(pc: Pc) {
    pc.Failing? || pc.Returned? || pc.Done?
  }

  predicate CoreInv(k: Core, target: Pc) {
    && StampedIffFinished(k.snap)
    && (IsFinished(k.snap.status) || k.errored || k.published ==> AtEnd(target))
    && (!IsFinished(k.snap.status) ==> k.snap.error == None)
    && (k.snap.status.Running? || k.snap.status.Stopping? || k.published ==> k.snap.startedAt.Some?)
    && (k.snap.status.Starting? ==> k.snap.startedAt.None?)
    && (k.published ==> PublishedFacts(k))
    && (!k.published ==> k.snap.exitCode == None)
    && (IsFinished(k.snap.status) && !k.published ==> k.snap.error == Some(SupervisorError))
    && |k.forces| <= 1 && k.graceful <= 1
    && (k.lateQueryFailed ==> !k.treeSeen)
  }

  /** The program counters that follow a transition. */
  predicate FollowsTransition(pc: Pc) {
    pc.Selecting? || pc.Signalling? || pc.Forcing? || pc.LateEmpty? || pc.Returned?
  }

  predicate Inv(s: State) {
    && !s.panicked
    && (s.pc.Persisting? ==> FollowsTransition(s.pc.next))
    && AtPc(s.core, Target(s.pc))
    && CoreInv(s.core, Target(s.pc))
    && (s.core.exit.Some? ==> s.core.exit == s.env.worker)
    && (s.core.treeSeen ==> s.env.treeEmpty)
    && (s.core.snap.status.Running? || s.core.snap.status.Stopping? ==> s.env.spawned)
    && (s.persistFailed ==> s.core.errored)
    && (s.permits <==> !AtEnd(Target(s.pc)) && !Target(s.pc).Publishing?)
  }

  // ---- What one step may change ----

  /** What a snapshot says of the task itself never changes. */
  predicate SameTask(a: TaskSnapshot, b: TaskSnapshot) {
    && a.taskId == b.taskId && a.route == b.route && a.createdAt == b.createdAt
    && a.outputMode == b.outputMode && a.encoding == b.encoding
    && (a.startedAt.Some? ==> b.startedAt == a.startedAt)
  }

  /** The status only moves forward, and a terminal snapshot is never replaced. */
  predicate Forward(a: TaskSnapshot, b: TaskSnapshot) {
    && Rank(a.status) <= Rank(b.status)
    && SameTask(a, b)
    && (IsFinished(a.status) ==> SameButTruncation(a, b))
  }

  /** Memory changes only in the first half of a transition, the log only in the second, by the
      snapshot that clients see. */
  predicate LogRule(s: State, s': State) {
    && (s.persistFailed ==> s'.persistFailed)
    && (s'.log == s.log || (s.pc.Persisting? && s'.log == s.log + [Record(s.core.snap.(outputTruncated := s.env.truncated))]))
    && (s'.core.snap != s.core.snap ==> !s.pc.Persisting? && s'.pc.Persisting? && s'.log == s.log)
    && (s.pc.Persisting? && !s'.pc.Persisting? && !s'.persistFailed ==> s'.log == s.log + [Record(s.core.snap.(outputTruncated := s.env.truncated))])
  }

  /** A supervisor step never invents the reason LoggingFailure, nor an exit of the worker. */
  predicate ReasonRule(s: State, s': State) {
    && s'.env.cell == s.env.cell && s'.env.worker == s.env.worker
    && (s'.core.stopReason == Some(LoggingFailure) || Carried(Target(s'.pc)) == Some(LoggingFailure) ==>
          || s.env.cell == Some(LoggingFailure)
          || s.core.stopReason == Some(LoggingFailure)
          || Carried(Target(s.pc)) == Some(LoggingFailure))
  }

  /** Timeout is only acted on once the deadline has passed, and the deadline is set once. */
  predicate TimeoutRule(s: State, s': State) {
    && s'.env.now == s.env.now
    && (s'.deadline == s.deadline || s'.pc.Selecting?)
    && (s'.core.stopReason == Some(Timeout) || Carried(Target(s'.pc)) == Some(Timeout) ==>
          || s.deadline <= s.env.now
          || s.env.cell == Some(Timeout)
          || s.core.stopReason == Some(Timeout)
          || Carried(Target(s.pc)) == Some(Timeout))
  }

  /** Publishing is only reached by joining every reader in turn. */
  predicate JoinRule(s: State, s': State) {
    && (s'.env.readers == s.env.readers
        || (s.pc.Capturing? && s'.pc.Capturing? && s'.env.readers == s.env.readers + [Reading]))
    && (s'.pc.Joining? ==>
          || s'.pc.k == 0
          || (s.pc == Joining(s'.pc.k - 1) && s'.pc.k <= |s.env.readers| && s.env.readers[s'.pc.k - 1].ReaderOk?))
    && (s'.pc.Releasing? ==> s.pc == Joining(|s.env.readers|))
    && (s'.pc.Publishing? ==> s.pc.Releasing?)
  }

  /** Permits are given back once; publishing and finishing happen once, in their own steps; the tree
      is forced once. */
  predicate PublishRule(s: State, s': State) {
    && (s'.permits ==> s.permits)
    && (s.pc.Done? ==> s'.pc.Done?)
    && (s'.pc.Done? ==> s.pc.Done? || s.pc.Returned?)
    && (s.core.published ==> s'.core.published)
    && (s'.core.published ==> s.core.published || s.pc.Publishing?)
    && (s.core.errored ==> s'.core.errored)
    && (s'.core.forces == s.core.forces || (s.core.forces == [] && s'.core.forces == [s.env.now]))
  }

  predicate Good(s: State, s': State) {
    Inv(s') && Forward(s.core.snap, s'.core.snap) && LogRule(s, s') && PublishRule(s, s')
  }

  predicate GoodStep(s: State, s': State) {
    Good(s, s') && ReasonRule(s, s') && JoinRule(s, s') && TimeoutRule(s, s')
  }

  // ---- It holds initially and every step keeps it ----

  lemma InitInv(s: State)
    requires IsInit(s)
    ensures Inv(s)
  {
  }

  lemma PollingIsSafe(s: State)
    requires Inv(s)
    ensures Polled(s) == s
  {
  }

  lemma EnvironmentKeepsInv(c: Config, s: State, a: Action)
    requires Inv(s) && IsEnvironment(a) && Enabled(c, s, a)
    ensures Good(s, Apply(c, s, a))
  {
  }

  lemma ReaderOpenedKeepsInv(s: State)
    requires Inv(s) && s.pc.Capturing?
    ensures GoodStep(s, ReaderOpened(s))
  {
  }

  lemma CapturedKeepsInv(s: State)
    requires Inv(s) && s.pc.Capturing?
    ensures GoodStep(s, s.(pc := Spawning))
  {
  }

  lemma SpawnedKeepsInv(s: State)
    requires Inv(s) && s.pc.Spawning?
    ensures GoodStep(s, WorkerSpawned(s))
  {
  }

  lemma StartedKeepsInv(s: State, stamp: Timestamp)
    requires Inv(s) && s.pc.Spawning? && s.env.spawned
    ensures GoodStep(s, Started(s, stamp))
  {
  }

  lemma Unfinished(s: State)
    requires Inv(s) && !AtEnd(Target(s.pc))
    ensures !IsFinished(s.core.snap.status) && !s.core.errored && !s.core.published && s.core.snap.exitCode == None
  {
  }

  lemma AbortIsSafe(s: State)
    requires Inv(s) && !s.pc.Persisting? && !AtEnd(s.pc)
    ensures Inv(Abort(s))
  {
    Unfinished(s);
  }

  lemma AbortKeepsInv(s: State)
    requires Inv(s) && (Fallible(s.pc) || s.pc.Joining?)
    ensures GoodStep(s, Abort(s))
  {
    AbortIsSafe(s);
  }

  lemma PersistedKeepsInv(c: Config, s: State)
    requires Inv(s) && s.pc.Persisting?
    ensures GoodStep(s, Persisted(c, s))
  {
  }

  lemma PersistErrorKeepsInv(s: State, appended: bool)
    requires Inv(s) && s.pc.Persisting? && !s.core.errored
    ensures GoodStep(s, PersistFailed(s, appended))
  {
  }

  lemma IgnoredPersistErrorKeepsInv(s: State, appended: bool)
    requires Inv(s) && s.pc.Persisting? && s.core.errored
    ensures GoodStep(s, PersistFailed(s, appended))
  {
  }

  lemma PersistFailedKeepsInv(s: State, appended: bool)
    requires Inv(s) && s.pc.Persisting?
    ensures GoodStep(s, PersistFailed(s, appended))
  {
    if s.core.errored { IgnoredPersistErrorKeepsInv(s, appended); } else { PersistErrorKeepsInv(s, appended); }
  }

  lemma ObserveWorkerKeepsInv(s: State)
    requires Inv(s) && PollsWorker(s.pc) && s.env.worker.Some?
    ensures GoodStep(s, ObserveWorker(s))
  {
  }

  lemma DeadlineKeepsInv(s: State)
    requires Inv(s) && s.pc.Selecting? && s.deadline <= s.env.now
    ensures GoodStep(s, s.(pc := StopBegin(Timeout)))
  {
  }

  lemma BeginForceKeepsInv(s: State, reason: StopReason, graceful: bool)
    requires Inv(s) && (if graceful then PollsForce(s.pc) && (reason == ForceKilled || reason == s.pc.reason) else s.pc.StopBegin? && reason == ForceKilled)
    ensures GoodStep(s, BeginForce(s, reason, graceful))
  {
  }

  lemma GraceBegunKeepsInv(s: State)
    requires Inv(s) && s.pc.StopBegin? && !s.pc.reason.ForceKilled?
    ensures GoodStep(s, StopEntered(s, s.pc.reason))
  {
  }

  lemma StopEnteredKeepsInv(s: State)
    requires Inv(s) && s.pc.StopBegin?
    ensures GoodStep(s, StopEntered(s, s.pc.reason))
  {
    if s.pc.reason.ForceKilled? { BeginForceKeepsInv(s, ForceKilled, false); } else { GraceBegunKeepsInv(s); }
  }

  lemma SignalledKeepsInv(c: Config, s: State)
    requires Inv(s) && s.pc.Signalling?
    ensures GoodStep(s, Signalled(c, s, s.pc.reason))
  {
  }

  lemma StopReadKeepsInv(s: State)
    requires Inv(s) && s.pc.Selecting?
    ensures GoodStep(s, ObserveStop(s))
  {
  }

  lemma OtherReasonKeepsInv(s: State)
    requires Inv(s) && PollsForce(s.pc) && s.env.cell != Some(ForceKilled)
    ensures GoodStep(s, ObserveStop(s))
  {
  }

  lemma ForceReadKeepsInv(s: State)
    requires Inv(s) && PollsForce(s.pc) && s.env.cell == Some(ForceKilled)
    ensures GoodStep(s, ObserveStop(s))
  {
  }

  lemma ObserveStopKeepsInv(s: State)
    requires Inv(s) && (s.pc.Selecting? || PollsForce(s.pc))
    ensures GoodStep(s, ObserveStop(s))
  {
    if s.pc.Selecting? {
      StopReadKeepsInv(s);
    } else if s.env.cell == Some(ForceKilled) {
      ForceReadKeepsInv(s);
    } else {
      OtherReasonKeepsInv(s);
    }
  }

  lemma GraceEndedKeepsInv(s: State)
    requires Inv(s) && s.pc.GraceTree? && s.env.treeEmpty
    ensures GoodStep(s, ObserveTree(s))
  {
  }

  lemma ForceEndedKeepsInv(s: State)
    requires Inv(s) && s.pc.ForceTree? && s.env.treeEmpty
    ensures GoodStep(s, ObserveTree(s))
  {
  }

  lemma LateTreeKeepsInv(s: State)
    requires Inv(s) && s.pc.LateTree? && s.env.treeEmpty
    ensures GoodStep(s, ObserveTree(s))
  {
  }

  lemma StoppedTreeKeepsInv(s: State)
    requires Inv(s) && s.pc.StoppedTree? && s.env.treeEmpty
    ensures GoodStep(s, ObserveTree(s))
  {
  }

  lemma LateEmptyKeepsInv(s: State)
    requires Inv(s) && s.pc.LateEmpty? && s.env.treeEmpty
    ensures GoodStep(s, ObserveTree(s))
  {
  }

  lemma ObserveTreeKeepsInv(s: State)
    requires Inv(s) && s.env.treeEmpty
    requires s.pc.GraceTree? || s.pc.ForceTree? || s.pc.StoppedTree? || s.pc.LateTree? || s.pc.LateEmpty?
    ensures GoodStep(s, ObserveTree(s))
  {
    if s.pc.GraceTree? {
      GraceEndedKeepsInv(s);
    } else if s.pc.ForceTree? {
      ForceEndedKeepsInv(s);
    } else if s.pc.LateTree? {
      LateTreeKeepsInv(s);
    } else if s.pc.StoppedTree? {
      StoppedTreeKeepsInv(s);
    } else {
      LateEmptyKeepsInv(s);
    }
  }

  lemma ForcedKeepsInv(s: State)
    requires Inv(s) && s.pc.Forcing?
    ensures GoodStep(s, ForceCalled(s))
  {
  }

  lemma LateForcedKeepsInv(s: State)
    requires Inv(s) && s.pc.LateForcing?
    ensures GoodStep(s, ForceCalled(s))
  {
  }

  lemma LateTimedOutKeepsInv(s: State)
    requires Inv(s) && s.pc.LateTree? && s.deadline <= s.env.now
    ensures GoodStep(s, LateTimedOut(s))
  {
  }

  lemma LateErrorKeepsInv(s: State)
    requires Inv(s) && s.pc.LateTree?
    ensures GoodStep(s, LateErrorIgnored(s))
  {
  }

  lemma NextReaderKeepsInv(s: State)
    requires Inv(s) && s.pc.Joining? && s.pc.k < |s.env.readers| && s.env.readers[s.pc.k].ReaderOk?
    ensures GoodStep(s, s.(pc := Joining(s.pc.k + 1)))
  {
  }

  lemma AllJoinedKeepsInv(s: State)
    requires Inv(s) && s.pc.Joining? && s.pc.k == |s.env.readers|
    ensures GoodStep(s, s.(pc := Releasing))
  {
  }

  lemma ReaderJoinedKeepsInv(s: State)
    requires Inv(s) && s.pc.Joining?
    ensures GoodStep(s, ReaderJoined(s))
  {
    var k := s.pc.k;
    if k == |s.env.readers| {
      AllJoinedKeepsInv(s);
    } else if k < |s.env.readers| && s.env.readers[k].ReaderOk? {
      NextReaderKeepsInv(s);
    } else {
      AbortKeepsInv(s);
    }
  }

  lemma ReleasedKeepsInv(s: State)
    requires Inv(s) && s.pc.Releasing?
    ensures GoodStep(s, s.(permits := false, pc := Publishing))
  {
  }

  lemma PublishedIsSafe(s: State, stamp: Timestamp)
    requires Inv(s) && s.pc.Publishing?
    ensures Inv(Published(s, stamp))
  {
  }

  lemma PublishedKeepsInv(s: State, stamp: Timestamp)
    requires Inv(s) && s.pc.Publishing?
    ensures GoodStep(s, Published(s, stamp))
  {
    PublishedIsSafe(s, stamp);
    Unfinished(s);
  }

  lemma FailedKeepsInv(s: State, stamp: Timestamp)
    requires Inv(s) && s.pc.Failing?
    ensures GoodStep(s, Update(s, FailedSnapshot(s.core.snap, stamp), Returned))
  {
  }

  lemma FinishedKeepsInv(s: State)
    requires Inv(s) && s.pc.Returned?
    ensures GoodStep(s, s.(pc := Done))
  {
  }

  predicate IsStopAction(a: Action) {
    a.DeadlineHit? || a.StopObserved? || a.EnterStop? || a.SignalGraceful? || a.GraceExpired? || a.CallForce?
  }

  lemma StopActionKeepsInv(c: Config, s: State, a: Action)
    requires Inv(s) && IsStopAction(a) && SupervisorEnabled(c, s, a)
    ensures GoodStep(s, ApplySupervisor(c, s, a))
  {
    match a
    case DeadlineHit => DeadlineKeepsInv(s);
    case StopObserved => ObserveStopKeepsInv(s);
    case EnterStop => StopEnteredKeepsInv(s);
    case SignalGraceful => SignalledKeepsInv(c, s);
    case GraceExpired => BeginForceKeepsInv(s, s.pc.reason, true);
    case CallForce => if s.pc.Forcing? { ForcedKeepsInv(s); } else { LateForcedKeepsInv(s); }
  }

  predicate IsEndAction(a: Action) {
    a.LateExpired? || a.LateQueryError? || a.JoinReader? || a.Release? || a.Publish? || a.FailTransition? || a.MarkFinished?
  }

  lemma EndActionKeepsInv(c: Config, s: State, a: Action)
    requires Inv(s) && IsEndAction(a) && SupervisorEnabled(c, s, a)
    ensures GoodStep(s, ApplySupervisor(c, s, a))
  {
    match a
    case LateExpired => LateTimedOutKeepsInv(s);
    case LateQueryError => LateErrorKeepsInv(s);
    case JoinReader => ReaderJoinedKeepsInv(s);
    case Release => ReleasedKeepsInv(s);
    case Publish(stamp) => PublishedKeepsInv(s, stamp);
    case FailTransition(stamp) => FailedKeepsInv(s, stamp);
    case MarkFinished => FinishedKeepsInv(s);
  }

  lemma OtherActionKeepsInv(c: Config, s: State, a: Action)
    requires Inv(s) && !IsEnvironment(a) && !IsStopAction(a) && !IsEndAction(a) && SupervisorEnabled(c, s, a)
    ensures GoodStep(s, ApplySupervisor(c, s, a))
  {
    match a
    case OpenReader => ReaderOpenedKeepsInv(s);
    case ReadersOpened => CapturedKeepsInv(s);
    case Spawn => SpawnedKeepsInv(s);
    case SpecSent(stamp) => StartedKeepsInv(s, stamp);
    case Fail => AbortKeepsInv(s);
    case PersistOk => PersistedKeepsInv(c, s);
    case PersistFail(appended) => PersistFailedKeepsInv(s, appended);
    case WorkerObserved => ObserveWorkerKeepsInv(s);
    case TreeObserved => ObserveTreeKeepsInv(s);
  }

  lemma SupervisorStep(c: Config, s: State, a: Action)
    requires Inv(s) && !IsEnvironment(a) && SupervisorEnabled(c, s, a)
    ensures GoodStep(s, ApplySupervisor(c, s, a))
  {
    if IsStopAction(a) {
      StopActionKeepsInv(c, s, a);
    } else if IsEndAction(a) {
      EndActionKeepsInv(c, s, a);
    } else {
      OtherActionKeepsInv(c, s, a);
    }
  }

  lemma StepKeepsInv(c: Config, s: State, a: Action)
    requires Inv(s) && Enabled(c, s, a)
    ensures Good(s, Apply(c, s, a))
  {
    if IsEnvironment(a) {
      EnvironmentKeepsInv(c, s, a);
    } else {
      PollingIsSafe(s);
      SupervisorStep(c, s, a);
    }
  }

  // ---- Readers ----

  /** Some reader has failed, or is about to return its failure. */
  predicate ReaderBroken(readers: seq<Reader>) {
    exists k :: 0 <= k < |readers| && (readers[k].Reported? || readers[k].ReaderErr?)
  }

  /** LoggingFailure is only ever seen once a reader has failed. */
  predicate LoggingFailureHasCause(s: State) {
    (s.env.cell == Some(LoggingFailure)
     || s.core.stopReason == Some(LoggingFailure)
     || Carried(Target(s.pc)) == Some(LoggingFailure))
    ==> ReaderBroken(s.env.readers)
  }

  predicate ReaderInv(s: State) {
    && LoggingFailureHasCause(s)
    && (s.pc.Joining? ==> s.pc.k <= |s.env.readers| && AllReadersOk(s.env.readers[..s.pc.k]))
    && (s.pc.Releasing? || s.pc.Publishing? || s.core.published ==> AllReadersOk(s.env.readers))
  }

  /** Readers only move forward: a broken one stays broken, a finished one stays finished. */
  predicate ReadersAdvance(before: seq<Reader>, after: seq<Reader>) {
    && |before| <= |after|
    && forall k :: 0 <= k < |before| ==>
         && (before[k].ReaderOk? ==> after[k].ReaderOk?)
         && (before[k].Reported? || before[k].ReaderErr? ==> after[k].Reported? || after[k].ReaderErr?)
  }

  lemma BrokenStaysBroken(before: seq<Reader>, after: seq<Reader>)
    requires ReadersAdvance(before, after) && ReaderBroken(before)
    ensures ReaderBroken(after)
  {
    var k :| 0 <= k < |before| && (before[k].Reported? || before[k].ReaderErr?);
    assert after[k].Reported? || after[k].ReaderErr?;
  }

  lemma EnvironmentAdvances(e: Env, a: Action)
    requires IsEnvironment(a) && EnvironmentEnabled(e, a)
    ensures ReadersAdvance(e.readers, ApplyEnvironment(e, a).readers)
    ensures |ApplyEnvironment(e, a).readers| == |e.readers|
  {
  }

  lemma EnvironmentKeepsReaders(c: Config, s: State, a: Action)
    requires ReaderInv(s) && IsEnvironment(a) && Enabled(c, s, a)
    ensures ReaderInv(Apply(c, s, a))
  {
    var s' := Apply(c, s, a);
    EnvironmentAdvances(s.env, a);
    if ReaderBroken(s.env.readers) { BrokenStaysBroken(s.env.readers, s'.env.readers); }
    if a.ReaderReports? { assert s'.env.readers[a.k].Reported?; }
  }

  lemma RulesKeepReaders(s: State, s': State)
    requires Inv(s) && ReaderInv(s) && ReasonRule(s, s') && JoinRule(s, s') && PublishRule(s, s')
    ensures ReaderInv(s')
  {
    if ReaderBroken(s.env.readers) { BrokenStaysBroken(s.env.readers, s'.env.readers); }
    if s'.pc.Joining? && s'.pc.k > 0 {
      assert s.env.readers[..s'.pc.k] == s.env.readers[..s'.pc.k - 1] + [s.env.readers[s'.pc.k - 1]];
    }
    if s'.pc.Releasing? {
      assert s.env.readers[..|s.env.readers|] == s.env.readers;
    }
  }

  // ---- The deadline ----

  predicate ActsOnTimeout(s: State) {
    s.core.stopReason == Some(Timeout) || Carried(Target(s.pc)) == Some(Timeout)
  }

  /** Nobody sends Timeout, so acting on it means that the deadline has passed. */
  predicate DeadlineInv(s: State) {
    && s.env.cell != Some(Timeout)
    && (ActsOnTimeout(s) ==> s.deadline <= s.env.now)
  }

  lemma EnvironmentKeepsDeadline(c: Config, s: State, a: Action)
    requires DeadlineInv(s) && IsEnvironment(a) && Enabled(c, s, a)
    ensures DeadlineInv(Apply(c, s, a))
  {
  }

  lemma RulesKeepDeadline(s: State, s': State)
    requires DeadlineInv(s) && Inv(s') && s'.env.cell == s.env.cell && TimeoutRule(s, s')
    ensures DeadlineInv(s')
  {
  }

  // ---- The event log ----

  /** The last line is what memory holds. */
  predicate LogCurrent(log: seq<Line>, snap: TaskSnapshot) {
    |log| > 0 && log[|log| - 1].Record? && SameButTruncation(log[|log| - 1].snap, snap)
  }

  /** Every line is a well-formed, not later stage of the same task. */
  predicate LineOk(line: Line, snap: TaskSnapshot) {
    line.Record? && StampedIffFinished(line.snap) && Forward(line.snap, snap)
  }

  predicate LogOk(log: seq<Line>, snap: TaskSnapshot) {
    && |log| > 0
    && (forall i :: 0 <= i < |log| ==> LineOk(log[i], snap))
    && (forall i, j :: 0 <= i < j < |log| ==> log[i].Record? && log[j].Record? && Forward(log[i].snap, log[j].snap))
  }

  predicate LogInv(s: State) {
    && LogOk(s.log, s.core.snap)
    && (!s.persistFailed && !s.pc.Persisting? ==> LogCurrent(s.log, s.core.snap))
  }

  lemma ForwardTransitive(x: TaskSnapshot, y: TaskSnapshot, z: TaskSnapshot)
    requires Forward(x, y) && Forward(y, z)
    ensures Forward(x, z)
  {
  }

  lemma AppendKeepsLog(log: seq<Line>, snap: TaskSnapshot, truncated: bool)
    requires LogOk(log, snap) && StampedIffFinished(snap)
    ensures LogOk(log + [Record(snap.(outputTruncated := truncated))], snap)
    ensures LogCurrent(log + [Record(snap.(outputTruncated := truncated))], snap)
  {
    var line := snap.(outputTruncated := truncated);
    forall i | 0 <= i < |log| ensures Forward(log[i].snap, line) {
      ForwardTransitive(log[i].snap, snap, line);
    }
  }

  lemma MemoryKeepsLog(log: seq<Line>, snap: TaskSnapshot, snap': TaskSnapshot)
    requires LogOk(log, snap) && Forward(snap, snap')
    ensures LogOk(log, snap')
  {
    forall i | 0 <= i < |log| ensures LineOk(log[i], snap') {
      ForwardTransitive(log[i].snap, snap, snap');
    }
  }

  lemma StepKeepsLog(s: State, s': State)
    requires Inv(s) && LogInv(s) && Good(s, s')
    ensures LogInv(s')
  {
    AppendKeepsLog(s.log, s.core.snap, s.env.truncated);
    MemoryKeepsLog(s.log, s.core.snap, s'.core.snap);
  }

  // ---- Every run ----

  predicate Safe(s: State) {
    Inv(s) && ReaderInv(s) && DeadlineInv(s) && LogInv(s)
  }

  lemma StepKeepsReadersAndDeadline(c: Config, s: State, a: Action)
    requires Inv(s) && ReaderInv(s) && DeadlineInv(s) && Enabled(c, s, a)
    ensures ReaderInv(Apply(c, s, a)) && DeadlineInv(Apply(c, s, a))
  {
    if IsEnvironment(a) {
      EnvironmentKeepsReaders(c, s, a);
      EnvironmentKeepsDeadline(c, s, a);
    } else {
      PollingIsSafe(s);
      SupervisorStep(c, s, a);
      RulesKeepReaders(s, Apply(c, s, a));
      RulesKeepDeadline(s, Apply(c, s, a));
    }
  }

  lemma StepKeepsSafe(c: Config, s: State, a: Action)
    requires Safe(s) && Enabled(c, s, a)
    ensures Safe(Apply(c, s, a)) && Good(s, Apply(c, s, a))
  {
    StepKeepsInv(c, s, a);
    StepKeepsReadersAndDeadline(c, s, a);
    StepKeepsLog(s, Apply(c, s, a));
  }

  lemma InitSafe(s: State)
    requires IsInit(s)
    ensures Safe(s)
  {
  }

  /** The invariant holds after every run, and every run only moves the snapshot forward. */
  lemma {:induction false} RunKeepsSafe(c: Config, s: State, acts: seq<Action>)
    requires Safe(s) && CanRun(c, s, acts)
    ensures Safe(Run(c, s, acts))
    ensures Forward(s.core.snap, Run(c, s, acts).core.snap)
    decreases |acts|
  {
    if acts != [] {
      var s' := Apply(c, s, acts[0]);
      StepKeepsSafe(c, s, acts[0]);
      RunKeepsSafe(c, s', acts[1..]);
      ForwardTransitive(s.core.snap, s'.core.snap, Run(c, s, acts).core.snap);
    }
  }
}
