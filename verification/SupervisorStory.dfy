/** A run of the supervisor told as the events that run_task has seen, in order, and what must
    follow from them: which termination it records, whose request it acts on, when it may time out
    and which stamps it writes. The reference reading below knows nothing of program counters. */
module SupervisorStory {
  import opened TaskModel
  import opened Supervisor
  import opened SupervisorInvariant

  // ---- Events ----

  datatype Event =
    | Sent(reason: StopReason)       // a value was written to the stop channel
    | BeganRunning(stamp: Timestamp)
    | Armed(at: nat)                 // the status Running was persisted
    | SawExit(status: ExitStatus)    // the worker exited by itself
    | SawDeadline(at: nat)
    | SawStop(reason: StopReason)    // a stop value was read while the worker ran
    | SawKill(at: nat)               // ForceKilled was read during a graceful stop
    | GraceOver(at: nat)
    | LateOver(at: nat)              // the deadline passed after the worker had exited
    | PublishedAt(stamp: Timestamp)
    | FailedAt(stamp: Timestamp)

  /** What happens in this step, if it is an event. */
  function See(s: State, a: Action): Option<Event> {
    match a
    case Request(reason) => Some(Sent(reason))
    case ReaderReports(_) => Some(Sent(LoggingFailure))
    case SpecSent(stamp) => Some(BeganRunning(stamp))
    case PersistOk => if s.pc == Persisting(Selecting) then Some(Armed(s.env.now)) else None
    case WorkerObserved => if s.pc.Selecting? && s.env.worker.Some? then Some(SawExit(s.env.worker.value)) else None
    case DeadlineHit => Some(SawDeadline(s.env.now))
    case StopObserved =>
      if s.env.cell.None? then None
      else if s.pc.Selecting? then Some(SawStop(s.env.cell.value))
      else if s.env.cell.value.ForceKilled? then Some(SawKill(s.env.now)) else None
    case GraceExpired => Some(GraceOver(s.env.now))
    case LateExpired => Some(LateOver(s.env.now))
    case Publish(stamp) => Some(PublishedAt(stamp))
    case FailTransition(stamp) => if IsFinished(s.core.snap.status) then None else Some(FailedAt(stamp))
    case _ => None
  }

  function Add(h: seq<Event>, e: Option<Event>): seq<Event> {
    if e.Some? then h + [e.value] else h
  }

  /** The story `h`, continued by a run. */
  function Story(c: Config, h: seq<Event>, s: State, acts: seq<Action>): seq<Event>
    requires CanRun(c, s, acts)
    decreases |acts|
  {
    if acts == [] then h else Story(c, Add(h, See(s, acts[0])), Apply(c, s, acts[0]), acts[1..])
  }

  // ---- The reference reading of a story ----

  /** What ended the wait for the worker. */
  datatype Decision = Open | Exit | Stop(reason: StopReason)

  datatype Digest = Digest(
    last: Option<StopReason>,  // the value of the stop channel
    sent: bool,                // some value was sent
    armed: Option<nat>,
    decision: Decision,
    killed: bool,
    overGrace: bool,
    overTime: bool,
    started: Option<Timestamp>,
    published: Option<Timestamp>,
    failed: Option<Timestamp>)

  /** The first decision counts; the last value sent counts. */
  function Read(d: Digest, e: Event): Digest {
    match e
    case Sent(reason) => d.(last := Some(reason), sent := true)
    case BeganRunning(stamp) => d.(started := Some(stamp))
    case Armed(at) => d.(armed := Some(at))
    case SawExit(_) => if d.decision.Open? then d.(decision := Exit) else d
    case SawDeadline(_) => if d.decision.Open? then d.(decision := Stop(Timeout)) else d
    case SawStop(reason) => if d.decision.Open? then d.(decision := Stop(reason)) else d
    case SawKill(_) => d.(killed := true)
    case GraceOver(_) => d.(overGrace := true)
    case LateOver(_) => d.(overTime := true)
    case PublishedAt(stamp) => d.(published := Some(stamp))
    case FailedAt(stamp) => d.(failed := Some(stamp))
  }

  /** The digest of a story; `cell` is the value sent before the supervisor subscribed. */
  function Summary(cell: Option<StopReason>, h: seq<Event>): Digest {
    if h == [] then Digest(cell, false, None, Open, false, false, false, None, None, None)
    else Read(Summary(cell, h[..|h| - 1]), h[|h| - 1])
  }

  /** The termination that a story calls for. */
  function Expected(d: Digest): Option<Termination> {
    match d.decision
    case Open => None
    case Exit => if d.overTime then Some(Termination(Timeout, false, true)) else None
    case Stop(reason) =>
      if reason.ForceKilled? then Some(Termination(ForceKilled, false, true))
      else if d.killed then Some(Termination(ForceKilled, true, true))
      else Some(Termination(reason, true, d.overGrace))
  }

  // ---- Causes within a story ----

  /** Event `j` has a cause before it: what was read was the last value sent, and in the main loop
      one sent after the supervisor subscribed; a deadline has passed since the task was running. */
  predicate Caused(c: Config, cell: Option<StopReason>, h: seq<Event>, j: nat)
    requires j < |h|
  {
    var d := Summary(cell, h[..j]);
    match h[j]
    case SawStop(reason) => d.last == Some(reason) && d.sent
    case SawKill(_) => d.last == Some(ForceKilled)
    case SawDeadline(at) => d.armed.Some? && d.armed.value + c.maxExecution <= at
    case LateOver(at) => d.armed.Some? && d.armed.value + c.maxExecution <= at
    case _ => true
  }

  predicate AllCaused(c: Config, cell: Option<StopReason>, h: seq<Event>) {
    forall j :: 0 <= j < |h| ==> Caused(c, cell, h, j)
  }

  /** A value read was sent: the digest's last value is in the story or was there before it. */
  lemma {:induction false} LastWasSent(cell: Option<StopReason>, h: seq<Event>)
    ensures var d := Summary(cell, h);
            && (d.sent ==> d.last.Some? && Sent(d.last.value) in h)
            && (!d.sent ==> d.last == cell)
  {
    if h != [] {
      LastWasSent(cell, h[..|h| - 1]);
    }
  }

  lemma AddRead(cell: Option<StopReason>, h: seq<Event>, e: Event)
    ensures Summary(cell, h + [e]) == Read(Summary(cell, h), e)
  {
    assert (h + [e])[..|h|] == h;
  }

  lemma AddCaused(c: Config, cell: Option<StopReason>, h: seq<Event>, e: Event)
    requires AllCaused(c, cell, h) && Caused(c, cell, h + [e], |h|)
    ensures AllCaused(c, cell, h + [e])
  {
    forall j | 0 <= j < |h| ensures Caused(c, cell, h + [e], j) {
      assert (h + [e])[..j] == h[..j];
      assert Caused(c, cell, h, j);
    }
  }

  // ---- The machine tells the truth ----

  /** The stop channel, the deadline and the stamps are those of the story. */
  predicate FactsTell(c: Config, d: Digest, s: State) {
    && s.env.cell == d.last && (s.env.unseen ==> d.sent && d.last.Some?)
    && (s.pc.Selecting? || s.pc.LateTree? ==> d.armed.Some? && s.deadline == d.armed.value + c.maxExecution)
    && s.core.snap.startedAt == d.started
    && (s.core.published <==> d.published.Some?)
    && s.core.snap.finishedAt == (if s.core.published then d.published else d.failed)
  }

  predicate Quiet(d: Digest) {
    !d.killed && !d.overGrace && !d.overTime
  }

  /** The story has a reason `r` in it. */
  predicate Known(d: Digest, r: StopReason) {
    d.decision == Stop(r) || (r.ForceKilled? && d.killed) || (r.Timeout? && d.overTime)
  }

  /** What a story has come to when the supervisor stands at `pc`. */
  predicate VerdictTells(d: Digest, k: Core, pc: Pc) {
    && (d.killed ==> d.decision.Stop? && d.decision.reason != ForceKilled)
    && (k.snap.termination.Some? ==> Known(d, k.snap.termination.value.reason))
    && (k.stopReason.Some? ==> Known(d, k.stopReason.value))
    && (Carried(pc).Some? ==> Known(d, Carried(pc).value))
    && ((k.errored && !k.published) ||
        match pc
        case Capturing => d.decision == Open && Quiet(d)
        case Spawning => d.decision == Open && Quiet(d)
        case Selecting => d.decision == Open && Quiet(d)
        case StopBegin(r) => d.decision == Stop(r) && Quiet(d)
        case Signalling(r) => d.decision == Stop(r) && Quiet(d)
        case GraceWorker(r) => d.decision == Stop(r) && Quiet(d)
        case GraceTree(r) => d.decision == Stop(r) && Quiet(d)
        case LateTree => d.decision == Exit && Quiet(d)
        case LateForcing => d.decision == Exit && d.overTime
        case _ => d.decision != Open && k.snap.termination == Expected(d))
  }

  predicate Tells(c: Config, cell: Option<StopReason>, h: seq<Event>, s: State) {
    var d := Summary(cell, h);
    AllCaused(c, cell, h) && FactsTell(c, d, s) && VerdictTells(d, s.core, Target(s.pc))
  }

  function ReadOpt(d: Digest, e: Option<Event>): Digest {
    if e.Some? then Read(d, e.value) else d
  }

  /** One step, from `s` to `s'`, in a story of digest `d`. */
  predicate StepTells(c: Config, d: Digest, s: State, a: Action, s': State) {
    var d' := ReadOpt(d, See(s, a));
    FactsTell(c, d', s') && VerdictTells(d', s'.core, Target(s'.pc))
  }

  // ---- Environment ----

  /** What is sent does not change the verdict. */
  lemma SendingKeepsVerdict(d: Digest, k: Core, pc: Pc, r: StopReason)
    requires VerdictTells(d, k, pc)
    ensures VerdictTells(d.(last := Some(r), sent := true), k, pc)
  {
  }

  lemma EnvironmentTells(c: Config, d: Digest, s: State, a: Action)
    requires FactsTell(c, d, s) && VerdictTells(d, s.core, Target(s.pc)) && IsEnvironment(a) && EnvironmentEnabled(s.env, a)
    ensures StepTells(c, d, s, a, s.(env := ApplyEnvironment(s.env, a)))
  {
    if a.Request? { SendingKeepsVerdict(d, s.core, Target(s.pc), a.reason); }
    if a.ReaderReports? { SendingKeepsVerdict(d, s.core, Target(s.pc), LoggingFailure); }
  }

  // ---- Supervisor ----

  /** The story is true so far. */
  predicate TrueSoFar(c: Config, d: Digest, s: State) {
    FactsTell(c, d, s) && VerdictTells(d, s.core, Target(s.pc))
  }

  /** run_task has neither failed nor published. */
  predicate Live(k: Core) {
    !k.errored && !k.published && k.snap.finishedAt.None?
  }

  lemma LiveBeforeEnd(s: State)
    requires Inv(s) && !AtEnd(Target(s.pc))
    ensures Live(s.core)
  {
  }

  lemma GraceFacts(s: State)
    requires Inv(s) && PollsForce(s.pc)
    ensures Live(s.core) && s.core.stopReason == None && s.pc.reason != ForceKilled
    ensures s.core.snap.termination == Some(Termination(s.pc.reason, true, false))
  {
  }

  lemma LateFacts(s: State)
    requires Inv(s) && s.pc.LateTree?
    ensures Live(s.core) && s.core.snap.termination == None
  {
  }

  lemma FailingFacts(s: State)
    requires Inv(s) && s.pc.Failing?
    ensures s.core.errored && (s.core.published <==> IsFinished(s.core.snap.status))
    ensures !s.core.published ==> s.core.snap.finishedAt.None?
  {
  }

  /** The verdict once a graceful stop for `r` turns to force, for `q`. */
  lemma ForcedVerdict(d: Digest, k: Core, r: StopReason, q: StopReason)
    requires d.decision == Stop(r) && r != ForceKilled && k.stopReason == None
    requires q == (if d.killed then ForceKilled else r) && (d.killed || d.overGrace)
    requires k.snap.termination == Some(Termination(q, true, true))
    ensures VerdictTells(d, k, Forcing(q))
  {
  }

  /** Steps that touch neither the channel nor a deadline nor a stamp. */
  lemma FactsCarryOver(c: Config, d: Digest, d': Digest, s: State, s': State)
    requires FactsTell(c, d, s) && !s'.pc.Selecting? && !s'.pc.LateTree?
    requires d' == d.(decision := d'.decision, killed := d'.killed, overGrace := d'.overGrace, overTime := d'.overTime)
    requires s'.env.cell == s.env.cell && (s'.env.unseen ==> s.env.unseen)
    requires s'.core.published == s.core.published
    requires s'.core.snap.startedAt == s.core.snap.startedAt && s'.core.snap.finishedAt == s.core.snap.finishedAt
    ensures FactsTell(c, d', s')
  {
  }

  /** The program counters of a stop that has come to force, or of a task that has ended. */
  predicate Concluded(pc: Pc) {
    || pc.Forcing? || pc.ForceWorker? || pc.ForceTree? || pc.StoppedTree? || pc.LateEmpty?
    || pc.Joining? || pc.Releasing? || pc.Publishing? || AtEnd(pc)
  }

  lemma VerdictCarriesOver(d: Digest, k: Core, pc: Pc, k': Core, pc': Pc)
    requires VerdictTells(d, k, pc) && Live(k) && Concluded(pc) && Concluded(pc') && !k'.errored
    requires Carried(pc').Some? ==> Carried(pc') == Carried(pc)
    requires k'.snap.termination == k.snap.termination && (k'.stopReason == k.stopReason || k'.stopReason == Carried(pc))
    ensures VerdictTells(d, k', pc')
  {
  }

  lemma StampKeepsVerdict(d: Digest, d': Digest, k: Core, pc: Pc)
    requires VerdictTells(d, k, pc) && d' == d.(started := d'.started, published := d'.published, failed := d'.failed)
    ensures VerdictTells(d', k, pc)
  {
  }

  lemma KillReadShape(s: State)
    requires PollsForce(s.pc) && s.env.cell == Some(ForceKilled)
    ensures var s' := ObserveStop(s);
            && s'.pc == Persisting(Forcing(ForceKilled)) && s'.env == s.env.(unseen := false)
            && s'.core == s.core.(forceSeen := true, snap := s'.core.snap)
            && s'.core.snap.termination == Some(Termination(ForceKilled, true, true))
            && s'.core.snap.startedAt == s.core.snap.startedAt && s'.core.snap.finishedAt == s.core.snap.finishedAt
  {
  }

  lemma OpenTells(c: Config, d: Digest, s: State)
    requires TrueSoFar(c, d, s)
    requires s.pc.Capturing?
    ensures StepTells(c, d, s, OpenReader, ReaderOpened(s))
  {
  }

  lemma CapturedTells(c: Config, d: Digest, s: State)
    requires TrueSoFar(c, d, s)
    requires s.pc.Capturing?
    ensures StepTells(c, d, s, ReadersOpened, s.(pc := Spawning))
  {
  }

  lemma SpawnTells(c: Config, d: Digest, s: State)
    requires TrueSoFar(c, d, s)
    requires s.pc.Spawning?
    ensures StepTells(c, d, s, Spawn, WorkerSpawned(s))
  {
  }

  lemma StartedTells(c: Config, d: Digest, s: State, stamp: Timestamp)
    requires TrueSoFar(c, d, s)
    requires s.pc.Spawning?
    ensures StepTells(c, d, s, SpecSent(stamp), Started(s, stamp))
  {
  }

  lemma FailTells(c: Config, d: Digest, s: State, a: Action)
    requires TrueSoFar(c, d, s)
    requires Live(s.core) && See(s, a).None?
    ensures StepTells(c, d, s, a, Abort(s))
  {
  }

  lemma PersistTells(c: Config, d: Digest, s: State)
    requires TrueSoFar(c, d, s)
    requires s.pc.Persisting? && FollowsTransition(s.pc.next)
    ensures StepTells(c, d, s, PersistOk, Persisted(c, s))
  {
  }

  lemma PersistFailTells(c: Config, d: Digest, s: State, appended: bool)
    requires TrueSoFar(c, d, s)
    requires s.pc.Persisting? && FollowsTransition(s.pc.next) && (s.core.published || s.core.errored ==> s.pc.next.Returned?)
    ensures StepTells(c, d, s, PersistFail(appended), PersistFailed(s, appended))
  {
  }

  lemma ExitTells(c: Config, d: Digest, s: State)
    requires TrueSoFar(c, d, s)
    requires s.pc.Selecting? && Live(s.core) && s.env.worker.Some?
    ensures StepTells(c, d, s, WorkerObserved, ObserveWorker(s))
  {
  }

  lemma DeadlineTells(c: Config, d: Digest, s: State)
    requires TrueSoFar(c, d, s)
    requires s.pc.Selecting? && Live(s.core)
    ensures StepTells(c, d, s, DeadlineHit, s.(pc := StopBegin(Timeout)))
  {
  }

  lemma StopReadTells(c: Config, d: Digest, s: State)
    requires TrueSoFar(c, d, s)
    requires s.pc.Selecting? && Live(s.core) && s.env.unseen
    ensures StepTells(c, d, s, StopObserved, ObserveStop(s))
  {
    var r := s.env.cell.value;
    var d' := d.(decision := Stop(r));
    var s' := s.(env := s.env.(unseen := false), pc := StopBegin(r));
    assert ObserveStop(s) == s';
    FactsCarryOver(c, d, d', s, s');
    assert VerdictTells(d', s.core, StopBegin(r));
  }

  lemma OtherReadTells(c: Config, d: Digest, s: State)
    requires TrueSoFar(c, d, s)
    requires PollsForce(s.pc) && s.env.cell != Some(ForceKilled)
    ensures StepTells(c, d, s, StopObserved, ObserveStop(s))
  {
  }

  lemma KillReadTells(c: Config, d: Digest, s: State)
    requires TrueSoFar(c, d, s)
    requires PollsForce(s.pc) && Live(s.core) && s.core.stopReason == None && s.pc.reason != ForceKilled
    requires s.env.cell == Some(ForceKilled)
    ensures StepTells(c, d, s, StopObserved, ObserveStop(s))
  {
    var d' := d.(killed := true);
    KillReadShape(s);
    var s' := ObserveStop(s);
    ForcedVerdict(d', s'.core, s.pc.reason, ForceKilled);
    FactsCarryOver(c, d, d', s, s');
  }

  lemma StopObservedTells(c: Config, d: Digest, s: State)
    requires Inv(s) && TrueSoFar(c, d, s) && ((s.pc.Selecting? && s.env.unseen) || PollsForce(s.pc))
    ensures StepTells(c, d, s, StopObserved, ObserveStop(s))
  {
    if s.pc.Selecting? {
      LiveBeforeEnd(s);
      StopReadTells(c, d, s);
    } else if s.env.cell == Some(ForceKilled) {
      GraceFacts(s);
      KillReadTells(c, d, s);
    } else {
      OtherReadTells(c, d, s);
    }
  }

  lemma StopEnteredTells(c: Config, d: Digest, s: State)
    requires TrueSoFar(c, d, s)
    requires s.pc.StopBegin? && Live(s.core)
    ensures StepTells(c, d, s, EnterStop, StopEntered(s, s.pc.reason))
  {
  }

  lemma SignalTells(c: Config, d: Digest, s: State)
    requires TrueSoFar(c, d, s)
    requires s.pc.Signalling?
    ensures StepTells(c, d, s, SignalGraceful, Signalled(c, s, s.pc.reason))
  {
  }

  lemma GraceOverTells(c: Config, d: Digest, s: State)
    requires TrueSoFar(c, d, s)
    requires PollsForce(s.pc) && Live(s.core) && s.core.stopReason == None && s.pc.reason != ForceKilled
    ensures StepTells(c, d, s, GraceExpired, BeginForce(s, s.pc.reason, true))
  {
    var d' := d.(overGrace := true);
    var s' := BeginForce(s, s.pc.reason, true);
    ForcedVerdict(d', s'.core, s.pc.reason, s.pc.reason);
    FactsCarryOver(c, d, d', s, s');
  }

  lemma WorkerTells(c: Config, d: Digest, s: State)
    requires TrueSoFar(c, d, s)
    requires (s.pc.GraceWorker? || s.pc.ForceWorker?) && s.env.worker.Some?
    ensures StepTells(c, d, s, WorkerObserved, ObserveWorker(s))
  {
  }

  lemma ForceTells(c: Config, d: Digest, s: State)
    requires TrueSoFar(c, d, s)
    requires s.pc.Forcing?
    ensures StepTells(c, d, s, CallForce, ForceCalled(s))
  {
  }

  lemma LateForceTells(c: Config, d: Digest, s: State)
    requires TrueSoFar(c, d, s)
    requires s.pc.LateForcing? && Live(s.core)
    ensures StepTells(c, d, s, CallForce, ForceCalled(s))
  {
  }

  lemma CallForceTells(c: Config, d: Digest, s: State)
    requires Inv(s) && TrueSoFar(c, d, s) && (s.pc.Forcing? || s.pc.LateForcing?)
    ensures StepTells(c, d, s, CallForce, ForceCalled(s))
  {
    LiveBeforeEnd(s);
    if s.pc.Forcing? { ForceTells(c, d, s); } else { LateForceTells(c, d, s); }
  }

  lemma GraceEndedTells(c: Config, d: Digest, s: State)
    requires TrueSoFar(c, d, s)
    requires s.pc.GraceTree? && Live(s.core) && s.pc.reason != ForceKilled && s.core.snap.termination == Some(Termination(s.pc.reason, true, false))
    ensures StepTells(c, d, s, TreeObserved, ObserveTree(s))
  {
  }

  lemma ForceEndedTells(c: Config, d: Digest, s: State)
    requires TrueSoFar(c, d, s)
    requires s.pc.ForceTree? && Live(s.core)
    ensures StepTells(c, d, s, TreeObserved, ObserveTree(s))
  {
    var s' := ObserveTree(s);
    FactsCarryOver(c, d, d, s, s');
    VerdictCarriesOver(d, s.core, s.pc, s'.core, s'.pc);
  }

  lemma LateTreeTells(c: Config, d: Digest, s: State)
    requires TrueSoFar(c, d, s)
    requires s.pc.LateTree? && Live(s.core) && s.core.snap.termination == None
    ensures StepTells(c, d, s, TreeObserved, ObserveTree(s))
  {
  }

  lemma EmptyTells(c: Config, d: Digest, s: State)
    requires TrueSoFar(c, d, s)
    requires s.pc.StoppedTree? || s.pc.LateEmpty?
    ensures StepTells(c, d, s, TreeObserved, ObserveTree(s))
  {
  }

  lemma ObserveTreeTells(c: Config, d: Digest, s: State)
    requires Inv(s) && TrueSoFar(c, d, s)
    requires s.pc.GraceTree? || s.pc.ForceTree? || s.pc.StoppedTree? || s.pc.LateTree? || s.pc.LateEmpty?
    ensures StepTells(c, d, s, TreeObserved, ObserveTree(s))
  {
    if s.pc.GraceTree? {
      GraceFacts(s);
      GraceEndedTells(c, d, s);
    } else if s.pc.ForceTree? {
      LiveBeforeEnd(s);
      ForceEndedTells(c, d, s);
    } else if s.pc.LateTree? {
      LateFacts(s);
      LateTreeTells(c, d, s);
    } else {
      EmptyTells(c, d, s);
    }
  }

  lemma LateOverTells(c: Config, d: Digest, s: State)
    requires TrueSoFar(c, d, s)
    requires s.pc.LateTree? && Live(s.core)
    ensures StepTells(c, d, s, LateExpired, LateTimedOut(s))
  {
  }

  lemma LateErrorTells(c: Config, d: Digest, s: State)
    requires TrueSoFar(c, d, s)
    requires s.pc.LateTree? && Live(s.core) && s.core.snap.termination == None
    ensures StepTells(c, d, s, LateQueryError, LateErrorIgnored(s))
  {
  }

  lemma JoinedTells(c: Config, d: Digest, s: State, next: Pc)
    requires TrueSoFar(c, d, s)
    requires s.pc.Joining? && (next.Joining? || next.Releasing?)
    ensures StepTells(c, d, s, JoinReader, s.(pc := next))
  {
  }

  lemma JoinTells(c: Config, d: Digest, s: State)
    requires Inv(s) && TrueSoFar(c, d, s) && s.pc.Joining?
    ensures StepTells(c, d, s, JoinReader, ReaderJoined(s))
  {
    LiveBeforeEnd(s);
    FailTells(c, d, s, JoinReader);
    JoinedTells(c, d, s, Releasing);
    JoinedTells(c, d, s, Joining(s.pc.k + 1));
  }

  lemma ReleaseTells(c: Config, d: Digest, s: State)
    requires TrueSoFar(c, d, s)
    requires s.pc.Releasing?
    ensures StepTells(c, d, s, Release, s.(permits := false, pc := Publishing))
  {
  }

  lemma PublishShape(s: State, stamp: Timestamp)
    ensures var s' := Published(s, stamp);
            && s'.pc == Persisting(Returned) && s'.env == s.env
            && s'.core == s.core.(published := true, snap := s'.core.snap)
            && s'.core.snap.termination == s.core.snap.termination
            && s'.core.snap.startedAt == s.core.snap.startedAt && s'.core.snap.finishedAt == Some(stamp)
  {
  }

  lemma PublishTells(c: Config, d: Digest, s: State, stamp: Timestamp)
    requires TrueSoFar(c, d, s)
    requires s.pc.Publishing? && Live(s.core)
    ensures StepTells(c, d, s, Publish(stamp), Published(s, stamp))
  {
    PublishShape(s, stamp);
    var s' := Published(s, stamp);
    var d' := d.(published := Some(stamp));
    VerdictCarriesOver(d, s.core, s.pc, s'.core, Returned);
    StampKeepsVerdict(d, d', s'.core, Returned);
  }

  lemma FailedFirstTells(c: Config, d: Digest, s: State, stamp: Timestamp)
    requires TrueSoFar(c, d, s)
    requires s.pc.Failing? && s.core.errored && !s.core.published && !IsFinished(s.core.snap.status)
    ensures StepTells(c, d, s, FailTransition(stamp), Update(s, FailedSnapshot(s.core.snap, stamp), Returned))
  {
  }

  lemma FailedLateTells(c: Config, d: Digest, s: State, stamp: Timestamp)
    requires TrueSoFar(c, d, s)
    requires s.pc.Failing? && s.core.published && IsFinished(s.core.snap.status)
    ensures StepTells(c, d, s, FailTransition(stamp), Update(s, FailedSnapshot(s.core.snap, stamp), Returned))
  {
  }

  lemma FailedTells(c: Config, d: Digest, s: State, stamp: Timestamp)
    requires Inv(s) && TrueSoFar(c, d, s) && s.pc.Failing?
    ensures StepTells(c, d, s, FailTransition(stamp), Update(s, FailedSnapshot(s.core.snap, stamp), Returned))
  {
    FailingFacts(s);
    if s.core.published { FailedLateTells(c, d, s, stamp); } else { FailedFirstTells(c, d, s, stamp); }
  }

  lemma ReturnTells(c: Config, d: Digest, s: State)
    requires TrueSoFar(c, d, s)
    requires s.pc.Returned?
    ensures StepTells(c, d, s, MarkFinished, s.(pc := Done))
  {
  }

  lemma PersistFacts(s: State)
    requires Inv(s) && s.pc.Persisting?
    ensures FollowsTransition(s.pc.next) && (s.core.published || s.core.errored ==> s.pc.next.Returned?)
  {
  }

  lemma StopActionTells(c: Config, d: Digest, s: State, a: Action)
    requires Inv(s) && TrueSoFar(c, d, s) && IsStopAction(a) && SupervisorEnabled(c, s, a)
    ensures StepTells(c, d, s, a, ApplySupervisor(c, s, a))
  {
    LiveBeforeEnd(s);
    match a
    case DeadlineHit => DeadlineTells(c, d, s);
    case StopObserved => StopObservedTells(c, d, s);
    case EnterStop => StopEnteredTells(c, d, s);
    case SignalGraceful => SignalTells(c, d, s);
    case GraceExpired => GraceFacts(s); GraceOverTells(c, d, s);
    case CallForce => CallForceTells(c, d, s);
  }

  lemma LateActionTells(c: Config, d: Digest, s: State, a: Action)
    requires Inv(s) && TrueSoFar(c, d, s) && (a.LateExpired? || a.LateQueryError?) && SupervisorEnabled(c, s, a)
    ensures StepTells(c, d, s, a, ApplySupervisor(c, s, a))
  {
    LateFacts(s);
    if a.LateExpired? { LateOverTells(c, d, s); } else { LateErrorTells(c, d, s); }
  }

  lemma EndActionTells(c: Config, d: Digest, s: State, a: Action)
    requires Inv(s) && TrueSoFar(c, d, s) && IsEndAction(a) && SupervisorEnabled(c, s, a)
    ensures StepTells(c, d, s, a, ApplySupervisor(c, s, a))
  {
    match a
    case LateExpired => LateActionTells(c, d, s, a);
    case LateQueryError => LateActionTells(c, d, s, a);
    case JoinReader => JoinTells(c, d, s);
    case Release => ReleaseTells(c, d, s);
    case Publish(stamp) => LiveBeforeEnd(s); PublishTells(c, d, s, stamp);
    case FailTransition(stamp) => FailedTells(c, d, s, stamp);
    case MarkFinished => ReturnTells(c, d, s);
  }

  lemma RunningActionTells(c: Config, d: Digest, s: State, a: Action)
    requires Inv(s) && TrueSoFar(c, d, s)
    requires (a.PersistOk? || a.PersistFail? || a.WorkerObserved? || a.TreeObserved?) && SupervisorEnabled(c, s, a)
    ensures StepTells(c, d, s, a, ApplySupervisor(c, s, a))
  {
    match a
    case PersistOk => PersistFacts(s); PersistTells(c, d, s);
    case PersistFail(appended) => PersistFacts(s); PersistFailTells(c, d, s, appended);
    case WorkerObserved =>
      LiveBeforeEnd(s);
      if s.pc.Selecting? { ExitTells(c, d, s); } else { WorkerTells(c, d, s); }
    case TreeObserved => ObserveTreeTells(c, d, s);
  }

  lemma StartActionTells(c: Config, d: Digest, s: State, a: Action)
    requires Inv(s) && TrueSoFar(c, d, s)
    requires (a.OpenReader? || a.ReadersOpened? || a.Spawn? || a.SpecSent? || a.Fail?) && SupervisorEnabled(c, s, a)
    ensures StepTells(c, d, s, a, ApplySupervisor(c, s, a))
  {
    match a
    case OpenReader => OpenTells(c, d, s);
    case ReadersOpened => CapturedTells(c, d, s);
    case Spawn => SpawnTells(c, d, s);
    case SpecSent(stamp) => StartedTells(c, d, s, stamp);
    case Fail => LiveBeforeEnd(s); FailTells(c, d, s, a);
  }

  lemma SupervisorTells(c: Config, d: Digest, s: State, a: Action)
    requires Inv(s) && TrueSoFar(c, d, s) && !IsEnvironment(a) && SupervisorEnabled(c, s, a)
    ensures StepTells(c, d, s, a, ApplySupervisor(c, s, a))
  {
    if IsStopAction(a) {
      StopActionTells(c, d, s, a);
    } else if IsEndAction(a) {
      EndActionTells(c, d, s, a);
    } else if a.PersistOk? || a.PersistFail? || a.WorkerObserved? || a.TreeObserved? {
      RunningActionTells(c, d, s, a);
    } else {
      StartActionTells(c, d, s, a);
    }
  }

  // ---- Every event has its cause ----

  /** The event of a step is caused by what came before. */
  lemma EventIsCaused(c: Config, cell: Option<StopReason>, h: seq<Event>, s: State, a: Action)
    requires FactsTell(c, Summary(cell, h), s) && Enabled(c, s, a) && See(s, a).Some?
    ensures Caused(c, cell, h + [See(s, a).value], |h|)
  {
    assert (h + [See(s, a).value])[..|h|] == h;
  }

  lemma StepKeepsTells(c: Config, cell: Option<StopReason>, h: seq<Event>, s: State, a: Action)
    requires Inv(s) && Tells(c, cell, h, s) && Enabled(c, s, a)
    ensures Tells(c, cell, Add(h, See(s, a)), Apply(c, s, a))
  {
    var d := Summary(cell, h);
    if IsEnvironment(a) {
      EnvironmentTells(c, d, s, a);
    } else {
      PollingIsSafe(s);
      SupervisorTells(c, d, s, a);
    }
    if See(s, a).Some? {
      AddRead(cell, h, See(s, a).value);
      EventIsCaused(c, cell, h, s, a);
      AddCaused(c, cell, h, See(s, a).value);
    }
  }

  lemma {:induction false} RunTells(c: Config, cell: Option<StopReason>, h: seq<Event>, s: State, acts: seq<Action>)
    requires Inv(s) && Tells(c, cell, h, s) && CanRun(c, s, acts)
    ensures Tells(c, cell, Story(c, h, s, acts), Run(c, s, acts))
    decreases |acts|
  {
    if acts != [] {
      StepKeepsTells(c, cell, h, s, acts[0]);
      StepKeepsInv(c, s, acts[0]);
      RunTells(c, cell, Add(h, See(s, acts[0])), Apply(c, s, acts[0]), acts[1..]);
    }
  }

  // ---- From the digest back to the events ----

  lemma {:induction false} DecisionWasSeen(cell: Option<StopReason>, h: seq<Event>) returns (j: nat)
    requires Summary(cell, h).decision.Stop?
    ensures j < |h|
    ensures var r := Summary(cell, h).decision.reason; h[j] == SawStop(r) || (h[j].SawDeadline? && r == Timeout)
  {
    var n := |h| - 1;
    if Summary(cell, h[..n]).decision.Stop? {
      j := DecisionWasSeen(cell, h[..n]);
    } else {
      j := n;
    }
  }

  lemma {:induction false} KillWasSeen(cell: Option<StopReason>, h: seq<Event>) returns (j: nat)
    requires Summary(cell, h).killed
    ensures j < |h| && h[j].SawKill?
  {
    var n := |h| - 1;
    if Summary(cell, h[..n]).killed {
      j := KillWasSeen(cell, h[..n]);
    } else {
      j := n;
    }
  }

  lemma {:induction false} LateOverWasSeen(cell: Option<StopReason>, h: seq<Event>) returns (j: nat)
    requires Summary(cell, h).overTime
    ensures j < |h| && h[j].LateOver?
  {
    var n := |h| - 1;
    if Summary(cell, h[..n]).overTime {
      j := LateOverWasSeen(cell, h[..n]);
    } else {
      j := n;
    }
  }

  /** A reason that the supervisor acts on was read, and what was read was sent before: while the
      supervisor listened, or, for a kill during the grace period, possibly before that. */
  lemma KnownWasSent(c: Config, cell: Option<StopReason>, h: seq<Event>, r: StopReason)
    requires AllCaused(c, cell, h) && Known(Summary(cell, h), r) && r != Timeout
    ensures Sent(r) in h || (r == ForceKilled && cell == Some(ForceKilled))
  {
    var j;
    if Summary(cell, h).decision == Stop(r) {
      j := DecisionWasSeen(cell, h);
    } else {
      j := KillWasSeen(cell, h);
    }
    assert Caused(c, cell, h, j);
    LastWasSent(cell, h[..j]);
    assert forall e :: e in h[..j] ==> e in h;
  }

  lemma {:induction false} SentWasRequested(c: Config, h: seq<Event>, s: State, acts: seq<Action>, r: StopReason)
    requires CanRun(c, s, acts) && Sent(r) in Story(c, h, s, acts)
    ensures Sent(r) in h || Request(r) in acts || (r == LoggingFailure && exists k :: ReaderReports(k) in acts)
    decreases |acts|
  {
    if acts != [] {
      SentWasRequested(c, Add(h, See(s, acts[0])), Apply(c, s, acts[0]), acts[1..], r);
      if acts[0].ReaderReports? { assert ReaderReports(acts[0].k) in acts; }
      if k :| ReaderReports(k) in acts[1..] { assert ReaderReports(k) in acts; }
    }
  }

  // ---- A decision stands ----

  predicate Stands(d: Digest, d': Digest) {
    (d.decision != Open ==> d'.decision == d.decision) && (d.killed ==> d'.killed)
  }

  lemma AddStands(cell: Option<StopReason>, h: seq<Event>, e: Option<Event>)
    ensures Stands(Summary(cell, h), Summary(cell, Add(h, e)))
  {
    if e.Some? { AddRead(cell, h, e.value); }
  }

  lemma {:induction false} DigestStands(c: Config, cell: Option<StopReason>, h: seq<Event>, s: State, acts: seq<Action>)
    requires CanRun(c, s, acts)
    ensures Stands(Summary(cell, h), Summary(cell, Story(c, h, s, acts)))
    decreases |acts|
  {
    if acts != [] {
      var e := See(s, acts[0]);
      AddStands(cell, h, e);
      DigestStands(c, cell, Add(h, e), Apply(c, s, acts[0]), acts[1..]);
    }
  }

  // ---- Results, over every run ----

  /** The story of a run from the beginning. */
  function StoryOf(c: Config, s0: State, acts: seq<Action>): seq<Event>
    requires CanRun(c, s0, acts)
  {
    Story(c, [], s0, acts)
  }

  lemma StoryIsTrue(c: Config, s0: State, acts: seq<Action>)
    requires IsInit(s0) && CanRun(c, s0, acts)
    ensures Tells(c, s0.env.cell, StoryOf(c, s0, acts), Run(c, s0, acts)) && Inv(Run(c, s0, acts))
  {
    InitSafe(s0);
    RunKeepsSafe(c, s0, acts);
    RunTells(c, s0.env.cell, [], s0, acts);
  }

  /** What run_task publishes is what its story calls for: the first decision (worker exit,
      deadline, value read from the stop channel) fixes the reason, a kill read during the grace
      period overrides it, and force is recorded exactly for a kill, a grace period that ran out,
      or a process tree that outlived the deadline. */
  lemma TerminationFollowsStory(c: Config, s0: State, acts: seq<Action>)
    requires IsInit(s0) && CanRun(c, s0, acts) && Run(c, s0, acts).core.published
    ensures Run(c, s0, acts).core.snap.termination == Expected(Summary(s0.env.cell, StoryOf(c, s0, acts)))
    ensures Summary(s0.env.cell, StoryOf(c, s0, acts)).decision != Open
  {
    StoryIsTrue(c, s0, acts);
  }

  /** The reason the supervisor is acting on, has acted on or has recorded. */
  predicate ActsOn(s: State, r: StopReason) {
    || Carried(Target(s.pc)) == Some(r) || s.core.stopReason == Some(r)
    || (s.core.snap.termination.Some? && s.core.snap.termination.value.reason == r)
  }

  /** Every reason but Timeout comes from outside: it was requested in this run, or reported by a
      failing reader, or is a kill sent before the supervisor subscribed. */
  lemma ReasonWasSent(c: Config, s0: State, acts: seq<Action>, r: StopReason)
    requires IsInit(s0) && CanRun(c, s0, acts) && ActsOn(Run(c, s0, acts), r) && r != Timeout
    ensures || Request(r) in acts
            || (r == LoggingFailure && exists k :: ReaderReports(k) in acts)
            || (r == ForceKilled && s0.env.cell == Some(ForceKilled))
  {
    StoryIsTrue(c, s0, acts);
    KnownWasSent(c, s0.env.cell, StoryOf(c, s0, acts), r);
    if Sent(r) in StoryOf(c, s0, acts) {
      SentWasRequested(c, [], s0, acts, r);
    }
  }

  lemma {:induction false} NoRequestForTimeout(c: Config, s: State, acts: seq<Action>)
    requires CanRun(c, s, acts)
    ensures Request(Timeout) !in acts
    decreases |acts|
  {
    if acts != [] {
      NoRequestForTimeout(c, Apply(c, s, acts[0]), acts[1..]);
    }
  }

  /** Nobody sends Timeout, so nobody reads it. */
  lemma TimeoutIsNotSent(c: Config, s0: State, acts: seq<Action>, j: nat)
    requires IsInit(s0) && CanRun(c, s0, acts) && j < |StoryOf(c, s0, acts)|
    requires AllCaused(c, s0.env.cell, StoryOf(c, s0, acts))
    ensures StoryOf(c, s0, acts)[j] != SawStop(Timeout)
  {
    var h, cell := StoryOf(c, s0, acts), s0.env.cell;
    assert Caused(c, cell, h, j);
    LastWasSent(cell, h[..j]);
    if h[j] == SawStop(Timeout) {
      assert Sent(Timeout) in h;
      SentWasRequested(c, [], s0, acts, Timeout);
      NoRequestForTimeout(c, s0, acts);
    }
  }

  /** Timeout is the exception: it was acted on at a moment at least the configured execution time
      after the moment at which the status Running was persisted. */
  lemma TimeoutWasDue(c: Config, s0: State, acts: seq<Action>) returns (j: nat)
    requires IsInit(s0) && CanRun(c, s0, acts) && ActsOn(Run(c, s0, acts), Timeout)
    ensures var h := StoryOf(c, s0, acts);
            && j < |h| && (h[j].SawDeadline? || h[j].LateOver?)
            && var armed := Summary(s0.env.cell, h[..j]).armed;
            armed.Some? && armed.value + c.maxExecution <= h[j].at
  {
    var h, cell := StoryOf(c, s0, acts), s0.env.cell;
    StoryIsTrue(c, s0, acts);
    if Summary(cell, h).decision == Stop(Timeout) {
      j := DecisionWasSeen(cell, h);
      assert Caused(c, cell, h, j);
      TimeoutIsNotSent(c, s0, acts, j);
    } else {
      j := LateOverWasSeen(cell, h);
      assert Caused(c, cell, h, j);
    }
  }

  /** The stamps of a snapshot are those of the steps that wrote them: the start, and the step that
      made it terminal, which is run_task's own exactly if it published. */
  lemma StampsFollowStory(c: Config, s0: State, acts: seq<Action>)
    requires IsInit(s0) && CanRun(c, s0, acts)
    ensures var s := Run(c, s0, acts);
            var d := Summary(s0.env.cell, StoryOf(c, s0, acts));
            && s.core.snap.startedAt == d.started
            && (s.core.published <==> d.published.Some?)
            && s.core.snap.finishedAt == (if s.core.published then d.published else d.failed)
  {
    StoryIsTrue(c, s0, acts);
  }
}
