/** What the supervisor guarantees over every run from every initial state: all interleavings,
    all injected failures. Each theorem speaks about observable state only. */
module SupervisorTheorems {
  import opened TaskModel
  import opened Supervisor
  import opened SupervisorInvariant
  import opened SupervisorRuns
  import St = SupervisorStory

  lemma Reachable(c: Config, s0: State, acts: seq<Action>)
    requires IsInit(s0) && CanRun(c, s0, acts)
    ensures Safe(Run(c, s0, acts))
  {
    InitSafe(s0);
    RunKeepsSafe(c, s0, acts);
  }

  // ---- Status ----

  /** Between any two moments of any run the status moves forward along Starting, Running,
      Stopping, terminal; a terminal snapshot never changes again (but for its truncation
      mark); `finished_at` is present exactly on terminal snapshots; id, route, mode, encoding,
      creation and start stamps never change. */
  lemma StatusOnlyMovesForward(c: Config, s0: State, first: seq<Action>, rest: seq<Action>)
    requires IsInit(s0) && CanRun(c, s0, first) && CanRun(c, Run(c, s0, first), rest)
    ensures var mid := Run(c, s0, first).core.snap;
            var end := Run(c, Run(c, s0, first), rest).core.snap;
            && Rank(mid.status) <= Rank(end.status)
            && (IsFinished(mid.status) ==> end.status == mid.status && SameButTruncation(mid, end))
            && (end.finishedAt.Some? <==> IsFinished(end.status))
            && SameTask(mid, end)
  {
    InitSafe(s0);
    RunKeepsSafe(c, s0, first);
    RunKeepsSafe(c, Run(c, s0, first), rest);
  }

  /** Once every reader has ended well, no stop reason can be LoggingFailure. */
  lemma NoLoggingFailureAtTheEnd(s: State)
    requires Safe(s) && (s.pc.Releasing? || s.pc.Publishing? || s.core.published)
    ensures s.core.stopReason != Some(LoggingFailure)
  {
    assert AllReadersOk(s.env.readers);
    assert !ReaderBroken(s.env.readers);
  }

  /** A terminal status comes from run_task itself, or from its failure. */
  lemma TerminalIsPublished(s: State)
    requires Safe(s) && IsFinished(s.core.snap.status)
    ensures s.core.published || (s.core.errored && s.core.snap.status == Failed)
    ensures !s.core.published ==> s.core.snap.error == Some(SupervisorError) && s.core.snap.exitCode == None
  {
  }

  lemma PublishedIsSettled(s: State)
    requires Safe(s) && s.core.published
    ensures IsFinished(s.core.snap.status) && Agrees(s.core.snap) && PublishedFacts(s.core)
    ensures s.core.exit == s.env.worker && s.core.snap.startedAt.Some?
  {
    NoLoggingFailureAtTheEnd(s);
  }

  /** Status and termination determine each other. */
  predicate StatusMatches(status: TaskStatus, t: Option<Termination>, exitCode: Option<int>) {
    && (status.Succeeded? <==> t.None? && exitCode == Some(0))
    && (status.Failed? <==> t.None? && exitCode != Some(0))
    && (status.TimedOut? <==> t.Some? && t.value.reason == Timeout)
    && (status.Cancelled? <==> t.Some? && t.value.reason == CancelRequested)
    && (status.Killed? <==> t.Some? && t.value.reason == ForceKilled)
    && (status.Killed? ==> t.value.forced)
    && (status.Interrupted? <==> t.Some? && ByService(t.value.reason))
  }

  lemma AgreesBothWays(snap: TaskSnapshot)
    requires Agrees(snap)
    ensures StatusMatches(snap.status, snap.termination, snap.exitCode)
  {
  }

  /** What run_task publishes has a status and a termination that determine each other, whether
      or not it could be persisted; any other terminal status is the Failed of an error. */
  lemma FinalStatusAgrees(c: Config, s0: State, acts: seq<Action>)
    requires IsInit(s0) && CanRun(c, s0, acts)
    ensures var s := Run(c, s0, acts);
            var snap := s.core.snap;
            && (s.core.published ==> IsFinished(snap.status) && StatusMatches(snap.status, snap.termination, snap.exitCode))
            && (IsFinished(snap.status) && !s.core.published ==>
                  s.core.errored && snap.status == Failed && snap.error == Some(SupervisorError) && snap.exitCode == None)
            && (s.persistFailed ==> s.core.errored)
  {
    Reachable(c, s0, acts);
    var s := Run(c, s0, acts);
    if s.core.published {
      PublishedIsSettled(s);
      AgreesBothWays(s.core.snap);
    } else if IsFinished(s.core.snap.status) {
      TerminalIsPublished(s);
    }
  }

  /** The published record tells what happened. */
  predicate RecordIsTrue(s: State) {
    var snap := s.core.snap;
    && s.env.worker.Some? && snap.exitCode == s.env.worker.value.code
    && snap.startedAt.Some?
    && (snap.termination.Some? ==>
          && (snap.termination.value.forced <==> |s.core.forces| == 1)
          && (snap.termination.value.gracefulAttempted <==> s.core.graceful == 1))
  }

  lemma TimeoutIsDue(s: State)
    requires Safe(s) && (ActsOnTimeout(s) || s.core.snap.status.TimedOut?)
    ensures s.deadline <= s.env.now
  {
    assert DeadlineInv(s);
  }

  /** What run_task publishes is what happened: the recorded exit code is the worker's own, the
      start was stamped, each kind of signal is recorded exactly when it was sent, and a task
      is only TimedOut (or being stopped for Timeout) once its deadline has passed. */
  lemma PublishedRecordIsTrue(c: Config, s0: State, acts: seq<Action>)
    requires IsInit(s0) && CanRun(c, s0, acts)
    ensures var s := Run(c, s0, acts);
            && (ActsOnTimeout(s) || s.core.snap.status.TimedOut? ==> s.deadline <= s.env.now)
            && (s.core.published ==> RecordIsTrue(s))
  {
    Reachable(c, s0, acts);
    var s := Run(c, s0, acts);
    if ActsOnTimeout(s) || s.core.snap.status.TimedOut? {
      TimeoutIsDue(s);
    }
    if s.core.published {
      PublishedIsSettled(s);
    }
  }

  lemma BrokenReaderFails(s: State)
    requires Safe(s) && ReaderBroken(s.env.readers) && IsFinished(s.core.snap.status)
    ensures s.core.snap.status == Failed && s.core.errored
  {
    TerminalIsPublished(s);
    assert !AllReadersOk(s.env.readers);
  }

  /** A failed output reader ends the task as Failed, whatever stop reasons raced with it;
      the final choice of a status never sees LoggingFailure. */
  lemma ReaderFailureEndsFailed(c: Config, s0: State, acts: seq<Action>)
    requires IsInit(s0) && CanRun(c, s0, acts)
    ensures var s := Run(c, s0, acts);
            && (s.pc.Publishing? ==> s.core.stopReason != Some(LoggingFailure))
            && (ReaderBroken(s.env.readers) && IsFinished(s.core.snap.status) ==>
                  s.core.snap.status == Failed && s.core.errored)
  {
    Reachable(c, s0, acts);
    var s := Run(c, s0, acts);
    if s.pc.Publishing? {
      NoLoggingFailureAtTheEnd(s);
    }
    if ReaderBroken(s.env.readers) && IsFinished(s.core.snap.status) {
      BrokenReaderFails(s);
    }
  }

  // ---- Decisions ----

  /** What may be recorded after the first decision, an exit or a stop for `r`. */
  predicate RecordedAfter(decision: St.Decision, t: Option<Termination>) {
    match decision
    case Open => false
    case Exit => t == None || t == Some(Termination(Timeout, false, true))
    case Stop(r) =>
      if r.ForceKilled? then t == Some(Termination(ForceKilled, false, true))
      else t == Some(Termination(r, true, false)) || t == Some(Termination(r, true, true)) || t == Some(Termination(ForceKilled, true, true))
  }

  /** The decision that a step of the main loop takes. */
  function DecisionOf(s: State, a: Action): St.Decision {
    match a
    case WorkerObserved => St.Exit
    case DeadlineHit => St.Stop(Timeout)
    case StopObserved => if s.env.cell.Some? then St.Stop(s.env.cell.value) else St.Open
    case _ => St.Open
  }

  lemma {:induction false} RunKeepsInv(c: Config, s: State, acts: seq<Action>)
    requires Inv(s) && CanRun(c, s, acts)
    ensures Inv(Run(c, s, acts))
    decreases |acts|
  {
    if acts != [] {
      StepKeepsInv(c, s, acts[0]);
      RunKeepsInv(c, Apply(c, s, acts[0]), acts[1..]);
    }
  }

  /** What a true story says of a published task. */
  predicate Concludes(d: St.Digest, k: Core) {
    && (k.published ==> d.decision != St.Open && k.snap.termination == St.Expected(d))
    && (d.killed ==> d.decision.Stop? && d.decision.reason != ForceKilled)
  }

  lemma TrueStoryConcludes(c: Config, cell: Option<StopReason>, h: seq<St.Event>, s: State)
    requires Inv(s) && St.Tells(c, cell, h, s)
    ensures Concludes(St.Summary(cell, h), s.core)
  {
  }

  /** The story goes on beyond a step and a run; what it had decided after the step stands. */
  lemma StoryGoesOn(c: Config, cell: Option<StopReason>, h: seq<St.Event>, s: State, a: Action, rest: seq<Action>)
    returns (d: St.Digest)
    requires Inv(s) && St.Tells(c, cell, h, s) && Enabled(c, s, a) && CanRun(c, Apply(c, s, a), rest)
    ensures Concludes(d, Run(c, Apply(c, s, a), rest).core)
    ensures St.Stands(St.ReadOpt(St.Summary(cell, h), St.See(s, a)), d)
  {
    var h' := St.Add(h, St.See(s, a));
    var s' := Apply(c, s, a);
    StepKeepsInv(c, s, a);
    St.StepKeepsTells(c, cell, h, s, a);
    St.RunTells(c, cell, h', s', rest);
    RunKeepsInv(c, s', rest);
    TrueStoryConcludes(c, cell, St.Story(c, h', s', rest), Run(c, s', rest));
    St.DigestStands(c, cell, h', s', rest);
    d := St.Summary(cell, St.Story(c, h', s', rest));
    if St.See(s, a).Some? { St.AddRead(cell, h, St.See(s, a).value); }
  }

  lemma LoopIsOpen(c: Config, d: St.Digest, s: State)
    requires Inv(s) && s.pc.Selecting? && St.VerdictTells(d, s.core, Target(s.pc))
    ensures d.decision == St.Open
  {
  }

  lemma StepDecides(c: Config, d: St.Digest, s: State, a: Action)
    requires s.pc.Selecting? && d.decision == St.Open && DecisionOf(s, a) != St.Open && Enabled(c, s, a)
    ensures St.ReadOpt(d, St.See(s, a)).decision == DecisionOf(s, a)
  {
  }

  lemma ExpectedIsRecorded(d: St.Digest, k: Core)
    requires k.published && Concludes(d, k)
    ensures RecordedAfter(d.decision, k.snap.termination)
  {
  }

  /** The main loop obeys what it has seen first: if a step there takes a decision, and the task is
      published later, then for that decision, at most overridden by a kill or a late timeout. */
  lemma DecisionIsObeyed(c: Config, s0: State, first: seq<Action>, a: Action, rest: seq<Action>)
    requires IsInit(s0) && CanRun(c, s0, first) && Run(c, s0, first).pc.Selecting?
    requires Enabled(c, Run(c, s0, first), a) && DecisionOf(Run(c, s0, first), a) != St.Open
    requires CanRun(c, Apply(c, Run(c, s0, first), a), rest)
    ensures var k := Run(c, Apply(c, Run(c, s0, first), a), rest).core;
            k.published ==> RecordedAfter(DecisionOf(Run(c, s0, first), a), k.snap.termination)
  {
    var s1 := Run(c, s0, first);
    var d1 := St.Summary(s0.env.cell, St.StoryOf(c, s0, first));
    St.StoryIsTrue(c, s0, first);
    LoopIsOpen(c, d1, s1);
    StepDecides(c, d1, s1, a);
    var d := StoryGoesOn(c, s0.env.cell, St.StoryOf(c, s0, first), s1, a, rest);
    if Run(c, Apply(c, s1, a), rest).core.published {
      ExpectedIsRecorded(d, Run(c, Apply(c, s1, a), rest).core);
    }
  }

  lemma KillIsSeen(d: St.Digest, s: State)
    requires PollsForce(s.pc) && s.env.cell == Some(ForceKilled)
    ensures St.ReadOpt(d, St.See(s, StopObserved)).killed
  {
  }

  lemma AfterRead(c: Config, s0: State, first: seq<Action>, rest: seq<Action>)
    requires IsInit(s0) && CanRun(c, s0, first) && Enabled(c, Run(c, s0, first), StopObserved)
    requires CanRun(c, Apply(c, Run(c, s0, first), StopObserved), rest)
    ensures Safe(Run(c, Apply(c, Run(c, s0, first), StopObserved), rest))
  {
    Reachable(c, s0, first);
    StepKeepsSafe(c, Run(c, s0, first), StopObserved);
    RunKeepsSafe(c, Apply(c, Run(c, s0, first), StopObserved), rest);
  }

  predicate KilledAfterGrace(k: Core) {
    k.published ==> k.snap.status == Killed && k.snap.termination == Some(Termination(ForceKilled, true, true))
  }

  lemma KilledByForce(d: St.Digest, s: State)
    requires Safe(s) && d.killed && Concludes(d, s.core)
    ensures KilledAfterGrace(s.core)
  {
    if s.core.published { PublishedIsSettled(s); }
  }

  /** A kill read during a graceful stop is obeyed: if the task is published later, it is Killed,
      by force, after a graceful attempt. */
  lemma KillIsObeyed(c: Config, s0: State, first: seq<Action>, rest: seq<Action>)
    requires IsInit(s0) && CanRun(c, s0, first)
    requires PollsForce(Run(c, s0, first).pc) && Run(c, s0, first).env.cell == Some(ForceKilled)
    requires CanRun(c, Apply(c, Run(c, s0, first), StopObserved), rest)
    ensures KilledAfterGrace(Run(c, Apply(c, Run(c, s0, first), StopObserved), rest).core)
  {
    var s1 := Run(c, s0, first);
    St.StoryIsTrue(c, s0, first);
    KillIsSeen(St.Summary(s0.env.cell, St.StoryOf(c, s0, first)), s1);
    var d := StoryGoesOn(c, s0.env.cell, St.StoryOf(c, s0, first), s1, StopObserved, rest);
    AfterRead(c, s0, first, rest);
    KilledByForce(d, Run(c, Apply(c, s1, StopObserved), rest));
  }

  // ---- Futures and signals ----

  /** No future is polled after it has completed and `expect` never meets None; the process
      tree is forced at most once, and never after an entirely graceful stop. */
  lemma NeverPolledAgain(c: Config, s0: State, acts: seq<Action>)
    requires IsInit(s0) && CanRun(c, s0, acts)
    ensures var s := Run(c, s0, acts);
            && !s.panicked
            && (PollsWorker(s.pc) ==> !s.core.workerSeen)
            && (PollsForce(s.pc) ==> !s.core.forceSeen)
            && (s.pc.GraceTree? ==> s.core.exit.Some?)
            && |s.core.forces| <= 1 && s.core.graceful <= 1
  {
    Reachable(c, s0, acts);
  }

  // ---- Permits ----

  /** How permits and the process tree go together. */
  predicate PermitsMatchTree(s: State) {
    && (s.core.treeSeen ==> s.env.treeEmpty)
    && (IsFinished(s.core.snap.status) ==> !s.permits)
    && (!s.core.errored && !s.core.treeSeen && !s.core.lateQueryFailed ==> s.permits)
    && ((s.core.published || !s.core.errored) && !s.permits ==> (!s.core.treeSeen <==> s.core.lateQueryFailed))
  }

  lemma SafePermits(s: State)
    requires Safe(s)
    ensures PermitsMatchTree(s)
  {
  }

  /** A terminal task holds no permit. Unless run_task fails before it publishes, the permits
      outlive the process tree, except exactly when the late wait_empty query failed and was
      ignored. */
  lemma PermitsOutliveTree(c: Config, s0: State, acts: seq<Action>)
    requires IsInit(s0) && CanRun(c, s0, acts)
    ensures PermitsMatchTree(Run(c, s0, acts))
  {
    Reachable(c, s0, acts);
    SafePermits(Run(c, s0, acts));
  }

  /** The exception occurs: the script exits at once, the query fails, and the task is
      published as Succeeded, its permits gone, with a tree nobody has seen empty. */
  lemma IgnoredQueryErrorReleasesPermits(snap: TaskSnapshot) returns (acts: seq<Action>, s: State)
    requires IsFresh(snap)
    ensures IsInit(Init(snap, None)) && LeadsTo(Init(snap, None), acts, s)
    ensures s.core.snap.status == Succeeded && !s.permits && !s.core.errored
    ensures !s.core.treeSeen && !s.env.treeEmpty
  {
    var s0 := Init(snap, None);
    acts, s := RunsToExit(snap, false);
    acts, s := QueryFails(s0, acts, s);
    acts, s := Joins(s0, acts, s);
    acts, s := Publishes(s0, acts, s);
  }

  // ---- The log ----

  /** If no persist has failed, a finished supervisor leaves the log ending in what memory
      holds; every prefix of the log is a history of the same task that only moves forward. */
  lemma LogEndsWithMemory(c: Config, s0: State, acts: seq<Action>)
    requires IsInit(s0) && CanRun(c, s0, acts)
    ensures var s := Run(c, s0, acts);
            && LogOk(s.log, s.core.snap)
            && (s.pc.Done? && !s.persistFailed ==> LogCurrent(s.log, s.core.snap) && IsFinished(s.core.snap.status))
  {
    Reachable(c, s0, acts);
  }
}
