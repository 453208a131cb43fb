/** One generation of the service: admission of tasks (src/app.rs, `execute`; src/store.rs,
    `create`), their supervisors, cleanup, and the drain at the end (src/store.rs,
    `wait_until_idle`, `mark_finished`; src/runtime.rs, `run`).

    Requests, supervisors, cleanup and the draining loop interleave at every await point and
    every atomic operation. */
module Service {
  import opened TaskModel
  import S = Supervisor
  import SI = SupervisorInvariant
  import E = EventLog

  datatype Route = Route(limit: nat, config: S.Config)

  /** One task of the store or one request on its way to becoming a task. */
  datatype Exec =
    | Recovered(snap: TaskSnapshot)                       // loaded from the log at start
    | Rejected                                            // refused or failed
    | HasGlobal(route: string)
    | HasBoth(route: string)                              // creating the record
    | Inserted(route: string, snap: TaskSnapshot, cell: Option<StopReason>)  // in the task map
    | Counted(route: string, snap: TaskSnapshot, cell: Option<StopReason>)   // active_count incremented
    | Supervised(route: string, sup: S.State)

  /** The end of a generation in runtime::run. `round` is the first or the second wait; a
      Notified future created by `Waiting` hears `notify_waiters`, one not yet created does not. */
  datatype Driver =
    | Serving
    | Draining
    | Check(round: nat)
    | Loaded(round: nat)
    | Waiting(round: nat, woken: bool)
    | Escalating
    | Drained
    | Bailed

  datatype State = State(
    limit: nat,
    routes: map<string, Route>,
    retention: nat,
    available: nat,
    routeAvailable: map<string, nat>,
    execs: map<nat, Exec>,
    listed: set<nat>,
    active: int,
    notifying: nat,
    driver: Driver,
    activeAtWait: nat,          // active_count when the current wait began
    cleanupNow: Timestamp,
    doomed: set<nat>)

  datatype Action =
    | Arrive(e: nat, route: string)
    | TryRoute(e: nat)
    | CreateFails(e: nat)
    | Insert(e: nat, snap: TaskSnapshot)
    | EarlyStop(e: nat, reason: StopReason)
    | Count(e: nat)
    | Spawn(e: nat)
    | Supervise(e: nat, act: S.Action)
    | Notify
    | CleanupStart(now: Timestamp)
    | CleanupScan(e: nat)
    | CleanupRemove(e: nat)
    | StopServing
    | BeginWait
    | Load
    | Arm
    | Wake
    | TimeOut

  function SnapshotOf(x: Exec): Option<TaskSnapshot> {
    match x
    case Recovered(snap) => Some(snap)
    case Inserted(_, snap, _) => Some(snap)
    case Counted(_, snap, _) => Some(snap)
    case Supervised(_, sup) => Some(sup.core.snap)
    case _ => None
  }

  /** This entry is no request in flight. */
  predicate AtRest(x: Exec) {
    x.Recovered? || x.Rejected? || x.Supervised?
  }

  predicate Enabled(s: State, a: Action) {
    match a
    case Arrive(e, route) => s.driver.Serving? && e !in s.execs && route in s.routes
    case TryRoute(e) => e in s.execs && s.execs[e].HasGlobal? && s.execs[e].route in s.routeAvailable
    case CreateFails(e) => e in s.execs && s.execs[e].HasBoth? && s.execs[e].route in s.routeAvailable
    case Insert(e, snap) => e in s.execs && s.execs[e].HasBoth? && IsFresh(snap) && snap.taskId == e
    case EarlyStop(e, reason) =>
      e in s.execs && (s.execs[e].Inserted? || s.execs[e].Counted?) && !reason.LoggingFailure? && !reason.Timeout?
    case Count(e) => e in s.execs && s.execs[e].Inserted?
    case Spawn(e) => e in s.execs && s.execs[e].Counted?
    case Supervise(e, act) =>
      && e in s.execs && s.execs[e].Supervised? && s.execs[e].route in s.routes && s.execs[e].route in s.routeAvailable
      && S.Enabled(s.routes[s.execs[e].route].config, s.execs[e].sup, act)
    case Notify => s.notifying > 0
    case CleanupStart(_) => true
    case CleanupScan(e) =>
      && e in s.listed && e in s.execs && SnapshotOf(s.execs[e]).Some? && s.retention < U64_SPAN
      && SnapshotOf(s.execs[e]).value.finishedAt.Some?
      && E.Expired(s.cleanupNow, SnapshotOf(s.execs[e]).value.finishedAt.value, s.retention)
    case CleanupRemove(e) => e in s.doomed
    case StopServing => s.driver.Serving? && forall e :: e in s.execs ==> AtRest(s.execs[e])
    case BeginWait => s.driver.Draining? || s.driver.Escalating?
    case Load => s.driver.Check?
    case Arm => s.driver.Loaded?
    case Wake => s.driver.Waiting? && s.driver.woken
    case TimeOut => s.driver.Waiting? && !s.driver.woken
  }

  function Put(s: State, e: nat, x: Exec): State {
    s.(execs := s.execs[e := x])
  }

  function GiveBackRoute(s: State, route: string): State
    requires route in s.routeAvailable
  {
    s.(routeAvailable := s.routeAvailable[route := s.routeAvailable[route] + 1])
  }

  function Admit(s: State, e: nat, route: string): State {
    if s.available > 0 then Put(s, e, HasGlobal(route)).(available := s.available - 1)
    else Put(s, e, Rejected)
  }

  /** A refused route permit drops the global one again. */
  function AdmitRoute(s: State, e: nat, route: string): State
    requires route in s.routeAvailable
  {
    if s.routeAvailable[route] > 0
    then Put(s, e, HasBoth(route)).(routeAvailable := s.routeAvailable[route := s.routeAvailable[route] - 1])
    else Put(s, e, Rejected).(available := s.available + 1)
  }

  function Refunded(s: State, e: nat, route: string): State
    requires route in s.routeAvailable
  {
    GiveBackRoute(Put(s, e, Rejected).(available := s.available + 1), route)
  }

  function Listed(s: State, e: nat, x: Exec): State {
    Put(s, e, x).(listed := s.listed + {e})
  }

  function NowCounted(s: State, e: nat, x: Exec): State {
    Put(s, e, x).(active := s.active + 1)
  }

  /** Entry `e` moves to the supervisor state `sup`, returning the permits it has dropped and
      leaving the count when `finished`. */
  function Moved(s: State, e: nat, sup: S.State, finished: bool): State
    requires e in s.execs && s.execs[e].Supervised? && s.execs[e].route in s.routeAvailable
  {
    var x := s.execs[e];
    var moved := Put(s, e, Supervised(x.route, sup));
    var released :=
      if x.sup.permits && !sup.permits then GiveBackRoute(moved, x.route).(available := s.available + 1) else moved;
    if finished then released.(active := s.active - 1, notifying := s.notifying + 1) else released
  }

  function SuperviseStep(s: State, e: nat, act: S.Action): State
    requires Enabled(s, Supervise(e, act))
  {
    Moved(s, e, S.Apply(s.routes[s.execs[e].route].config, s.execs[e].sup, act), act.MarkFinished?)
  }

  function DriverStep(s: State, a: Action): State
    requires a.StopServing? || a.BeginWait? || a.Load? || a.Arm? || a.Wake? || a.TimeOut?
    requires Enabled(s, a)
  {
    match a
    case StopServing => s.(driver := Draining)
    case BeginWait =>
      s.(driver := Check(if s.driver.Draining? then 1 else 2), activeAtWait := if s.active >= 0 then s.active else 0)
    case Load => s.(driver := if s.active == 0 then Drained else Loaded(s.driver.round))
    case Arm => s.(driver := Waiting(s.driver.round, false))
    case Wake => s.(driver := Check(s.driver.round))
    case TimeOut => s.(driver := if s.driver.round == 1 then Escalating else Bailed)
  }

  function Step(s: State, a: Action): State
    requires Enabled(s, a)
  {
    match a
    case Arrive(e, route) => Admit(s, e, route)
    case TryRoute(e) => AdmitRoute(s, e, s.execs[e].route)
    case CreateFails(e) => Refunded(s, e, s.execs[e].route)
    case Insert(e, snap) => Listed(s, e, Inserted(s.execs[e].route, snap, None))
    case EarlyStop(e, reason) => Put(s, e, s.execs[e].(cell := Some(reason)))
    case Count(e) => NowCounted(s, e, Counted(s.execs[e].route, s.execs[e].snap, s.execs[e].cell))
    case Spawn(e) => Put(s, e, Supervised(s.execs[e].route, S.Init(s.execs[e].snap, s.execs[e].cell)))
    case Supervise(e, act) => SuperviseStep(s, e, act)
    case Notify =>
      s.(notifying := s.notifying - 1,
         driver := if s.driver.Waiting? then s.driver.(woken := true) else s.driver)
    case CleanupStart(now) => s.(cleanupNow := now, doomed := {})
    case CleanupScan(e) => s.(doomed := s.doomed + {e})
    case CleanupRemove(e) => s.(doomed := s.doomed - {e}, listed := s.listed - {e})
    case _ => DriverStep(s, a)
  }

  /** The entry that an action changes. */
  function Actor(a: Action): Option<nat> {
    match a
    case Arrive(e, _) => Some(e)
    case TryRoute(e) => Some(e)
    case CreateFails(e) => Some(e)
    case Insert(e, _) => Some(e)
    case EarlyStop(e, _) => Some(e)
    case Count(e) => Some(e)
    case Spawn(e) => Some(e)
    case Supervise(e, _) => Some(e)
    case _ => None
  }

  predicate IsDriverAction(a: Action) {
    a.StopServing? || a.BeginWait? || a.Load? || a.Arm? || a.Wake? || a.TimeOut?
  }

  predicate SameLimits(s: State, s': State) {
    s'.limit == s.limit && s'.routes == s.routes && s'.retention == s.retention
  }

  lemma MovedShape(s: State, e: nat, sup: S.State, finished: bool)
    requires e in s.execs && s.execs[e].Supervised? && s.execs[e].route in s.routeAvailable
    ensures var s' := Moved(s, e, sup, finished);
            && s'.execs == s.execs[e := Supervised(s.execs[e].route, sup)]
            && SameLimits(s, s') && s'.driver == s.driver && s'.activeAtWait == s.activeAtWait
            && s'.routeAvailable.Keys == s.routeAvailable.Keys
            && s'.active == (if finished then s.active - 1 else s.active)
            && s'.notifying == (if finished then s.notifying + 1 else s.notifying)
  {
  }

  /** What a step leaves alone: the configuration always, the driver unless it is the driver's step
      or a notification, the counters unless a task is counted or finishes. */
  lemma StepFrame(s: State, a: Action)
    requires Enabled(s, a)
    ensures SameLimits(s, Step(s, a))
    ensures IsDriverAction(a) ==> Step(s, a) == DriverStep(s, a)
    ensures !IsDriverAction(a) && !a.Notify? ==> Step(s, a).driver == s.driver
    ensures !a.BeginWait? ==> Step(s, a).activeAtWait == s.activeAtWait
    ensures !a.Notify? && !a.Supervise? ==> Step(s, a).notifying == s.notifying
    ensures !a.Count? && !a.Supervise? ==> Step(s, a).active == s.active
    ensures a.Supervise? ==> Step(s, a).active == (if a.act.MarkFinished? then s.active - 1 else s.active)
    ensures a.Supervise? ==> Step(s, a).notifying == (if a.act.MarkFinished? then s.notifying + 1 else s.notifying)
  {
    if a.Supervise? {
      var x := s.execs[a.e];
      MovedShape(s, a.e, S.Apply(s.routes[x.route].config, x.sup, a.act), a.act.MarkFinished?);
    }
  }

  // ---- Counting ----

  /** What is counted: holders of a global permit, of a permit of a route, or active tasks. */
  datatype Query = Global | OfRoute(route: string) | Active

  predicate Holds(q: Query, x: Exec) {
    match q
    case Global => x.HasGlobal? || x.HasBoth? || x.Inserted? || x.Counted? || (x.Supervised? && x.sup.permits)
    case OfRoute(r) =>
      (x.HasBoth? || x.Inserted? || x.Counted? || (x.Supervised? && x.sup.permits)) && x.route == r
    case Active => x.Counted? || (x.Supervised? && !x.sup.pc.Done?)
  }

  ghost function Holders(execs: map<nat, Exec>, q: Query): set<nat> {
    set e | e in execs && Holds(q, execs[e])
  }

  /** Sets that differ at most in `e`. */
  lemma CardinalityUpdate(before: set<nat>, after: set<nat>, e: nat)
    requires forall k :: k != e ==> (k in before <==> k in after)
    ensures |after| == |before| + (if e in after then 1 else 0) - (if e in before then 1 else 0)
  {
    var rest := before - {e};
    assert after - {e} == rest;
    if e in before { assert before == rest + {e}; } else { assert before == rest; }
    if e in after { assert after == rest + {e}; } else { assert after == rest; }
  }

  lemma HoldersUpdate(execs: map<nat, Exec>, e: nat, x: Exec, q: Query)
    ensures |Holders(execs[e := x], q)| ==
            |Holders(execs, q)| + (if Holds(q, x) then 1 else 0) - (if e in execs && Holds(q, execs[e]) then 1 else 0)
  {
    CardinalityUpdate(Holders(execs, q), Holders(execs[e := x], q), e);
  }

  // ---- The invariant ----

  ghost predicate PermitsConserved(s: State) {
    && s.available + |Holders(s.execs, Global)| == s.limit
    && s.routeAvailable.Keys == s.routes.Keys
    && forall r :: r in s.routes ==> s.routeAvailable[r] + |Holders(s.execs, OfRoute(r))| == s.routes[r].limit
  }

  ghost predicate ActiveExact(s: State) {
    s.active == |Holders(s.execs, Active)|
  }

  predicate EntryOk(s: State, x: Exec) {
    match x
    case Recovered(snap) => IsFinished(snap.status) && StampedIffFinished(snap)
    case Rejected => true
    case HasGlobal(route) => route in s.routes
    case HasBoth(route) => route in s.routes
    case Inserted(route, snap, cell) => route in s.routes && IsFresh(snap) && cell != Some(LoggingFailure) && cell != Some(Timeout)
    case Counted(route, snap, cell) => route in s.routes && IsFresh(snap) && cell != Some(LoggingFailure) && cell != Some(Timeout)
    case Supervised(route, sup) => route in s.routes && SI.Safe(sup)
  }

  predicate EntriesOk(s: State) {
    && (forall e :: e in s.execs ==> EntryOk(s, s.execs[e]))
    && (!s.driver.Serving? ==> forall e :: e in s.execs ==> AtRest(s.execs[e]))
  }

  predicate DoomedOk(s: State, e: nat) {
    && e in s.execs && SnapshotOf(s.execs[e]).Some? && s.retention < U64_SPAN
    && var snap := SnapshotOf(s.execs[e]).value;
    && IsFinished(snap.status) && snap.finishedAt.Some?
    && E.Expired(s.cleanupNow, snap.finishedAt.value, s.retention)
  }

  predicate DriverOk(s: State) {
    match s.driver
    case Check(_) => s.active <= s.activeAtWait
    case Loaded(_) => 1 <= s.activeAtWait && s.active <= s.activeAtWait
    case Waiting(_, _) => 1 <= s.activeAtWait && s.active <= s.activeAtWait
    case Escalating => 1 <= s.activeAtWait
    case Bailed => 1 <= s.activeAtWait
    case Drained => s.active == 0
    case _ => true
  }

  ghost predicate Inv(s: State) {
    && PermitsConserved(s) && ActiveExact(s) && EntriesOk(s) && DriverOk(s)
    && forall e :: e in s.doomed ==> DoomedOk(s, e)
  }

  /** A generation starts with the tasks that recovery found, all terminal, and all permits. */
  predicate IsInit(s: State) {
    && (forall e :: e in s.execs ==> s.execs[e].Recovered? && EntryOk(s, s.execs[e]) && s.execs[e].snap.taskId == e)
    && s.listed == s.execs.Keys
    && s.available == s.limit && s.routeAvailable.Keys == s.routes.Keys
    && (forall r :: r in s.routes ==> s.routeAvailable[r] == s.routes[r].limit)
    && s.active == 0 && s.activeAtWait == 0 && s.notifying == 0 && s.driver == Serving && s.doomed == {}
  }

  lemma InitInv(s: State)
    requires IsInit(s)
    ensures Inv(s)
  {
    assert Holders(s.execs, Global) == {};
    assert Holders(s.execs, Active) == {};
    forall r | r in s.routes ensures |Holders(s.execs, OfRoute(r))| == 0 {
      assert Holders(s.execs, OfRoute(r)) == {};
    }
  }

  // ---- Every step keeps it ----

  /** The change in the count of `q` when the entry `e` becomes `x`. */
  function Delta(s: State, e: nat, x: Exec, q: Query): int {
    (if Holds(q, x) then 1 else 0) - (if e in s.execs && Holds(q, s.execs[e]) then 1 else 0)
  }

  /** The semaphores and the counter move against the entry that changed. */
  ghost predicate Balanced(s: State, s': State, e: nat, x: Exec) {
    && s'.available == s.available - Delta(s, e, x, Global)
    && s'.active == s.active + Delta(s, e, x, Active)
    && s'.routeAvailable.Keys == s.routeAvailable.Keys
    && forall r :: r in s.routeAvailable ==> s'.routeAvailable[r] == s.routeAvailable[r] - Delta(s, e, x, OfRoute(r))
  }

  lemma BalancedKeepsCounts(s: State, s': State, e: nat, x: Exec)
    requires PermitsConserved(s) && ActiveExact(s) && Balanced(s, s', e, x)
    requires s'.execs == s.execs[e := x] && s'.limit == s.limit && s'.routes == s.routes
    ensures PermitsConserved(s') && ActiveExact(s')
  {
    HoldersUpdate(s.execs, e, x, Global);
    HoldersUpdate(s.execs, e, x, Active);
    forall r | r in s.routes
      ensures s'.routeAvailable[r] + |Holders(s'.execs, OfRoute(r))| == s.routes[r].limit
    {
      HoldersUpdate(s.execs, e, x, OfRoute(r));
    }
  }

  /** Only the entry `e`, the semaphores, the counter and the list have changed. */
  predicate OnlyEntry(s: State, s': State, e: nat, x: Exec) {
    s' == s.(execs := s.execs[e := x], available := s'.available, routeAvailable := s'.routeAvailable,
             active := s'.active, notifying := s'.notifying, listed := s'.listed)
  }

  lemma EntryKeepsInv(s: State, s': State, e: nat, x: Exec)
    requires Inv(s) && OnlyEntry(s, s', e, x) && Balanced(s, s', e, x)
    requires EntryOk(s, x) && (!s.driver.Serving? ==> AtRest(x) && s'.active <= s.active)
    requires e in s.doomed ==> DoomedOk(s', e)
    ensures Inv(s')
  {
    BalancedKeepsCounts(s, s', e, x);
    forall k | k in s'.execs ensures EntryOk(s', s'.execs[k]) {
      if k != e { assert EntryOk(s, s.execs[k]); }
    }
    forall k | k in s'.doomed ensures DoomedOk(s', k) {
      if k != e { assert DoomedOk(s, k); }
    }
  }

  lemma ArriveKeepsInv(s: State, e: nat, route: string)
    requires Inv(s) && s.driver.Serving? && e !in s.execs && route in s.routes
    ensures Inv(Admit(s, e, route))
  {
    var s' := Admit(s, e, route);
    assert !DoomedOk(s, e);
    EntryKeepsInv(s, s', e, s'.execs[e]);
  }

  lemma InFlightIsNotDoomed(s: State, e: nat)
    requires Inv(s) && e in s.execs && !AtRest(s.execs[e])
    ensures e !in s.doomed && s.driver.Serving?
  {
    assert EntryOk(s, s.execs[e]);
    assert !DoomedOk(s, e);
  }

  lemma AdmitRouteIsBalanced(s: State, e: nat)
    requires e in s.execs && s.execs[e].HasGlobal? && s.execs[e].route in s.routeAvailable
    ensures var s' := AdmitRoute(s, e, s.execs[e].route);
            && e in s'.execs && (s'.execs[e] == HasBoth(s.execs[e].route) || s'.execs[e] == Rejected)
            && Balanced(s, s', e, s'.execs[e]) && OnlyEntry(s, s', e, s'.execs[e])
  {
  }

  lemma TryRouteKeepsInv(s: State, e: nat)
    requires Inv(s) && e in s.execs && s.execs[e].HasGlobal? && s.execs[e].route in s.routeAvailable
    ensures Inv(AdmitRoute(s, e, s.execs[e].route))
  {
    var s' := AdmitRoute(s, e, s.execs[e].route);
    InFlightIsNotDoomed(s, e);
    assert EntryOk(s, s.execs[e]);
    AdmitRouteIsBalanced(s, e);
    EntryKeepsInv(s, s', e, s'.execs[e]);
  }

  lemma CreateFailsKeepsInv(s: State, e: nat)
    requires Inv(s) && e in s.execs && s.execs[e].HasBoth? && s.execs[e].route in s.routeAvailable
    ensures Inv(Refunded(s, e, s.execs[e].route))
  {
    InFlightIsNotDoomed(s, e);
    EntryKeepsInv(s, Refunded(s, e, s.execs[e].route), e, Rejected);
  }

  lemma InsertKeepsInv(s: State, e: nat, snap: TaskSnapshot)
    requires Inv(s) && e in s.execs && s.execs[e].HasBoth? && IsFresh(snap)
    ensures Inv(Listed(s, e, Inserted(s.execs[e].route, snap, None)))
  {
    InFlightIsNotDoomed(s, e);
    assert EntryOk(s, s.execs[e]);
    var x := Inserted(s.execs[e].route, snap, None);
    EntryKeepsInv(s, Listed(s, e, x), e, x);
  }

  lemma EarlyStopKeepsInv(s: State, e: nat, reason: StopReason)
    requires Inv(s) && e in s.execs && (s.execs[e].Inserted? || s.execs[e].Counted?) && !reason.LoggingFailure? && !reason.Timeout?
    ensures Inv(Put(s, e, s.execs[e].(cell := Some(reason))))
  {
    InFlightIsNotDoomed(s, e);
    assert EntryOk(s, s.execs[e]);
    var x := s.execs[e].(cell := Some(reason));
    EntryKeepsInv(s, Put(s, e, x), e, x);
  }

  lemma CountKeepsInv(s: State, e: nat)
    requires Inv(s) && e in s.execs && s.execs[e].Inserted?
    ensures Inv(NowCounted(s, e, Counted(s.execs[e].route, s.execs[e].snap, s.execs[e].cell)))
  {
    InFlightIsNotDoomed(s, e);
    assert EntryOk(s, s.execs[e]);
    var x := Counted(s.execs[e].route, s.execs[e].snap, s.execs[e].cell);
    EntryKeepsInv(s, NowCounted(s, e, x), e, x);
  }

  lemma SpawnKeepsInv(s: State, e: nat)
    requires Inv(s) && e in s.execs && s.execs[e].Counted?
    ensures Inv(Put(s, e, Supervised(s.execs[e].route, S.Init(s.execs[e].snap, s.execs[e].cell))))
  {
    InFlightIsNotDoomed(s, e);
    assert EntryOk(s, s.execs[e]);
    var x := Supervised(s.execs[e].route, S.Init(s.execs[e].snap, s.execs[e].cell));
    SI.InitSafe(x.sup);
    EntryKeepsInv(s, Put(s, e, x), e, x);
  }

  /** MarkFinished is the step, and the only step, that leaves the count. */
  lemma FinishRule(c: S.Config, sup: S.State, act: S.Action)
    requires SI.Inv(sup) && S.Enabled(c, sup, act)
    ensures S.Apply(c, sup, act).pc.Done? <==> sup.pc.Done? || act.MarkFinished?
    ensures act.MarkFinished? ==> !sup.pc.Done?
  {
    SI.StepKeepsInv(c, sup, act);
    if sup.pc.Returned? {
      assert S.IsEnvironment(act) || act.MarkFinished?;
    }
  }

  predicate Moves(x: Exec, sup: S.State, finished: bool) {
    && x.Supervised?
    && (sup.permits ==> x.sup.permits)
    && (sup.pc.Done? <==> x.sup.pc.Done? || finished) && (finished ==> !x.sup.pc.Done?)
  }

  lemma MovedIsBalanced(s: State, e: nat, sup: S.State, finished: bool)
    requires e in s.execs && Moves(s.execs[e], sup, finished) && s.execs[e].route in s.routeAvailable
    ensures Balanced(s, Moved(s, e, sup, finished), e, Supervised(s.execs[e].route, sup))
    ensures OnlyEntry(s, Moved(s, e, sup, finished), e, Supervised(s.execs[e].route, sup))
  {
  }

  lemma MovedKeepsInv(s: State, e: nat, sup: S.State, finished: bool)
    requires Inv(s) && e in s.execs && Moves(s.execs[e], sup, finished) && s.execs[e].route in s.routeAvailable
    requires SI.Safe(sup) && SI.Forward(s.execs[e].sup.core.snap, sup.core.snap)
    ensures Inv(Moved(s, e, sup, finished))
  {
    var x := s.execs[e];
    MovedIsBalanced(s, e, sup, finished);
    assert EntryOk(s, x);
    if e in s.doomed { assert DoomedOk(s, e); }
    EntryKeepsInv(s, Moved(s, e, sup, finished), e, Supervised(x.route, sup));
  }

  lemma SuperviseKeepsInv(s: State, e: nat, act: S.Action)
    requires Inv(s) && Enabled(s, Supervise(e, act))
    ensures Inv(SuperviseStep(s, e, act))
  {
    var x := s.execs[e];
    var c := s.routes[x.route].config;
    assert EntryOk(s, x);
    SI.StepKeepsSafe(c, x.sup, act);
    FinishRule(c, x.sup, act);
    MovedKeepsInv(s, e, S.Apply(c, x.sup, act), act.MarkFinished?);
  }

  lemma CleanupKeepsInv(s: State, a: Action)
    requires Inv(s) && Enabled(s, a) && (a.CleanupStart? || a.CleanupScan? || a.CleanupRemove? || a.Notify?)
    ensures Inv(Step(s, a))
  {
    var s' := Step(s, a);
    if a.CleanupScan? {
      assert EntryOk(s, s.execs[a.e]);
    }
    forall k | k in s'.doomed ensures DoomedOk(s', k) {
      if k in s.doomed { assert DoomedOk(s, k); }
    }
    forall k | k in s'.execs ensures EntryOk(s', s'.execs[k]) {
      assert EntryOk(s, s.execs[k]);
    }
  }

  lemma DriverKeepsInv(s: State, a: Action)
    requires Inv(s) && Enabled(s, a)
    requires a.StopServing? || a.BeginWait? || a.Load? || a.Arm? || a.Wake? || a.TimeOut?
    ensures Inv(DriverStep(s, a))
  {
    var s' := DriverStep(s, a);
    forall k | k in s'.doomed ensures DoomedOk(s', k) {
      assert DoomedOk(s, k);
    }
    forall k | k in s'.execs ensures EntryOk(s', s'.execs[k]) {
      assert EntryOk(s, s.execs[k]);
    }
  }

  lemma RequestKeepsInv(s: State, a: Action)
    requires Inv(s) && Enabled(s, a) && Actor(a).Some? && !a.Supervise?
    ensures Inv(Step(s, a))
  {
    match a
    case Arrive(e, route) => ArriveKeepsInv(s, e, route);
    case TryRoute(e) => TryRouteKeepsInv(s, e);
    case CreateFails(e) => CreateFailsKeepsInv(s, e);
    case Insert(e, snap) => InsertKeepsInv(s, e, snap);
    case EarlyStop(e, reason) => EarlyStopKeepsInv(s, e, reason);
    case Count(e) => CountKeepsInv(s, e);
    case Spawn(e) => SpawnKeepsInv(s, e);
  }

  lemma StepKeepsInv(s: State, a: Action)
    requires Inv(s) && Enabled(s, a)
    ensures Inv(Step(s, a))
  {
    if a.Supervise? {
      SuperviseKeepsInv(s, a.e, a.act);
    } else if Actor(a).Some? {
      RequestKeepsInv(s, a);
    } else if a.CleanupStart? || a.CleanupScan? || a.CleanupRemove? || a.Notify? {
      CleanupKeepsInv(s, a);
    } else {
      DriverKeepsInv(s, a);
    }
  }

  // ---- Every run ----

  predicate CanRun(s: State, acts: seq<Action>)
    decreases |acts|
  {
    acts == [] || (Enabled(s, acts[0]) && CanRun(Step(s, acts[0]), acts[1..]))
  }

  function Run(s: State, acts: seq<Action>): State
    requires CanRun(s, acts)
    decreases |acts|
  {
    if acts == [] then s else Run(Step(s, acts[0]), acts[1..])
  }

  /** The state after the first `i` actions of a run. */
  function At(s: State, acts: seq<Action>, i: nat): State
    requires CanRun(s, acts) && i <= |acts|
    decreases |acts|
  {
    if i == 0 then s else At(Step(s, acts[0]), acts[1..], i - 1)
  }

  lemma {:induction false} AtNext(s: State, acts: seq<Action>, m: nat)
    requires CanRun(s, acts) && m < |acts|
    ensures Enabled(At(s, acts, m), acts[m]) && At(s, acts, m + 1) == Step(At(s, acts, m), acts[m])
    decreases |acts|
  {
    if m > 0 { AtNext(Step(s, acts[0]), acts[1..], m - 1); }
  }

  lemma {:induction false} RunKeepsInv(s: State, acts: seq<Action>)
    requires Inv(s) && CanRun(s, acts)
    ensures Inv(Run(s, acts))
    decreases |acts|
  {
    if acts != [] {
      StepKeepsInv(s, acts[0]);
      RunKeepsInv(Step(s, acts[0]), acts[1..]);
    }
  }

  lemma {:induction false} AtIsRun(s: State, acts: seq<Action>, m: nat)
    requires CanRun(s, acts) && m <= |acts|
    ensures CanRun(s, acts[..m]) && Run(s, acts[..m]) == At(s, acts, m)
    decreases |acts|
  {
    if m > 0 {
      AtIsRun(Step(s, acts[0]), acts[1..], m - 1);
      assert acts[..m][1..] == acts[1..][..m - 1];
    }
  }

  lemma AtKeepsInv(s: State, acts: seq<Action>, m: nat)
    requires Inv(s) && CanRun(s, acts) && m <= |acts|
    ensures Inv(At(s, acts, m))
  {
    AtIsRun(s, acts, m);
    RunKeepsInv(s, acts[..m]);
  }

  lemma Reachable(s0: State, acts: seq<Action>)
    requires IsInit(s0) && CanRun(s0, acts)
    ensures Inv(Run(s0, acts))
  {
    InitInv(s0);
    RunKeepsInv(s0, acts);
  }

  // ---- Ids and the task map ----

  /** The task map holds tasks, and a task carries its own id. */
  predicate Named(s: State) {
    && (forall e :: e in s.listed ==> e in s.execs && SnapshotOf(s.execs[e]).Some?)
    && (forall e :: e in s.execs && SnapshotOf(s.execs[e]).Some? ==> SnapshotOf(s.execs[e]).value.taskId == e)
  }

  lemma OnlyActorChanges(s: State, a: Action)
    requires Enabled(s, a)
    ensures Actor(a).None? ==> Step(s, a).execs == s.execs && Step(s, a).listed <= s.listed
    ensures Actor(a).Some? ==>
              var e := Actor(a).value;
              && e in Step(s, a).execs && Step(s, a).execs == s.execs[e := Step(s, a).execs[e]]
              && (Step(s, a).listed == s.listed || (a.Insert? && Step(s, a).listed == s.listed + {e}))
  {
  }

  predicate EntryNamed(e: nat, x: Exec) {
    SnapshotOf(x).Some? && SnapshotOf(x).value.taskId == e
  }

  lemma SameTask(c: S.Config, sup: S.State, act: S.Action)
    requires SI.Inv(sup) && S.Enabled(c, sup, act)
    ensures S.Apply(c, sup, act).core.snap.taskId == sup.core.snap.taskId
  {
    SI.StepKeepsInv(c, sup, act);
  }

  lemma MovedIsNamed(s: State, e: nat, sup: S.State, finished: bool)
    requires e in s.execs && s.execs[e].Supervised? && s.execs[e].route in s.routeAvailable && sup.core.snap.taskId == e
    ensures e in Moved(s, e, sup, finished).execs && EntryNamed(e, Moved(s, e, sup, finished).execs[e])
  {
  }

  lemma SupervisedEntry(s: State, e: nat)
    requires EntriesOk(s) && Named(s) && e in s.execs && s.execs[e].Supervised?
    ensures SI.Inv(s.execs[e].sup) && s.execs[e].sup.core.snap.taskId == e
  {
    assert EntryOk(s, s.execs[e]);
  }

  lemma SuperviseKeepsName(s: State, e: nat, act: S.Action)
    requires EntriesOk(s) && Named(s) && Enabled(s, Supervise(e, act))
    ensures e in SuperviseStep(s, e, act).execs && EntryNamed(e, SuperviseStep(s, e, act).execs[e])
  {
    var x := s.execs[e];
    var c := s.routes[x.route].config;
    SupervisedEntry(s, e);
    SameTask(c, x.sup, act);
    MovedIsNamed(s, e, S.Apply(c, x.sup, act), act.MarkFinished?);
  }

  /** Requests that are not yet tasks are not in the task map. */
  lemma AdmissionIsNamed(s: State, a: Action)
    requires Named(s) && Enabled(s, a) && (a.Arrive? || a.TryRoute? || a.CreateFails?)
    ensures a.e in Step(s, a).execs && SnapshotOf(Step(s, a).execs[a.e]).None? && a.e !in s.listed
  {
  }

  /** A request that becomes a task takes its id. */
  lemma CreationIsNamed(s: State, a: Action)
    requires Named(s) && Enabled(s, a) && (a.Insert? || a.EarlyStop? || a.Count? || a.Spawn?)
    ensures a.e in Step(s, a).execs && EntryNamed(a.e, Step(s, a).execs[a.e])
  {
  }

  lemma EntryKeepsNamed(s: State, s': State, e: nat)
    requires Named(s) && e in s'.execs && s'.execs == s.execs[e := s'.execs[e]] && s'.listed <= s.listed + {e}
    requires SnapshotOf(s'.execs[e]).Some? ==> EntryNamed(e, s'.execs[e])
    requires e in s'.listed ==> SnapshotOf(s'.execs[e]).Some?
    ensures Named(s')
  {
  }

  /** The new entry is a task of its own id, or is not in the task map. */
  lemma ActorIsNamed(s: State, a: Action, e: nat)
    requires EntriesOk(s) && Named(s) && Enabled(s, a) && Actor(a) == Some(e)
    ensures e in Step(s, a).execs
    ensures EntryNamed(e, Step(s, a).execs[e]) || (SnapshotOf(Step(s, a).execs[e]).None? && e !in s.listed && !a.Insert?)
  {
    if a.Supervise? {
      SuperviseKeepsName(s, e, a.act);
    } else if a.Arrive? || a.TryRoute? || a.CreateFails? {
      AdmissionIsNamed(s, a);
    } else {
      CreationIsNamed(s, a);
    }
  }

  lemma StepKeepsNamed(s: State, a: Action)
    requires Inv(s) && Named(s) && Enabled(s, a)
    ensures Named(Step(s, a))
  {
    OnlyActorChanges(s, a);
    if Actor(a).Some? {
      ActorIsNamed(s, a, Actor(a).value);
      EntryKeepsNamed(s, Step(s, a), Actor(a).value);
    }
  }

  lemma {:induction false} RunKeepsNamed(s: State, acts: seq<Action>)
    requires Inv(s) && Named(s) && CanRun(s, acts)
    ensures Named(Run(s, acts))
    decreases |acts|
  {
    if acts != [] {
      StepKeepsInv(s, acts[0]);
      StepKeepsNamed(s, acts[0]);
      RunKeepsNamed(Step(s, acts[0]), acts[1..]);
    }
  }

  // ---- Permits ----

  lemma {:induction false} LimitsAreFixed(s: State, acts: seq<Action>)
    requires CanRun(s, acts)
    ensures SameLimits(s, Run(s, acts))
    decreases |acts|
  {
    if acts != [] {
      LimitsAreFixed(Step(s, acts[0]), acts[1..]);
    }
  }

  predicate TerminalIsFree(x: Exec) {
    x.Supervised? && IsFinished(x.sup.core.snap.status) ==> !x.sup.permits
  }

  lemma EntryIsFree(s: State, e: nat)
    requires EntriesOk(s) && e in s.execs
    ensures TerminalIsFree(s.execs[e])
  {
    assert EntryOk(s, s.execs[e]);
  }

  /** At every moment of every run, free and held permits add up to the configured limits,
      globally and for every route, and a terminal task holds none. */
  lemma PermitConservation(s0: State, acts: seq<Action>)
    requires IsInit(s0) && CanRun(s0, acts)
    ensures var s := Run(s0, acts);
            && PermitsConserved(s) && SameLimits(s0, s)
            && (forall e :: e in s.execs ==> TerminalIsFree(s.execs[e]))
  {
    Reachable(s0, acts);
    LimitsAreFixed(s0, acts);
    var s := Run(s0, acts);
    forall e | e in s.execs ensures TerminalIsFree(s.execs[e]) {
      EntryIsFree(s, e);
    }
  }

  /** The exact condition of a refusal, at any moment of any run: a request is refused at the global
      semaphore if and only if as many entries as the limit hold a global permit, and at its route
      if and only if as many as its limit hold one of the route. */
  lemma RefusedIffFull(s0: State, acts: seq<Action>, a: Action)
    requires IsInit(s0) && CanRun(s0, acts) && Enabled(Run(s0, acts), a) && (a.Arrive? || a.TryRoute?)
    ensures var s := Run(s0, acts);
            var x := Step(s, a).execs[a.e];
            && (a.Arrive? ==> x == (if |Holders(s.execs, Global)| == s0.limit then Rejected else HasGlobal(a.route)))
            && (a.TryRoute? ==>
                  && s.execs[a.e].route in s0.routes
                  && var route := s.execs[a.e].route;
                  x == (if |Holders(s.execs, OfRoute(route))| == s0.routes[route].limit then Rejected else HasBoth(route)))
  {
    Reachable(s0, acts);
    LimitsAreFixed(s0, acts);
    var s := Run(s0, acts);
    if a.TryRoute? { assert EntryOk(s, s.execs[a.e]); }
  }

  /** What a request becomes on its way to a supervisor: the fresh snapshot it was created with, its
      route, and the last stop value sent to it, which the supervisor finds but has not yet seen. */
  lemma CreationIsFaithful(s0: State, acts: seq<Action>, a: Action)
    requires IsInit(s0) && CanRun(s0, acts) && Enabled(Run(s0, acts), a)
    requires a.Insert? || a.EarlyStop? || a.Count? || a.Spawn?
    ensures var s := Run(s0, acts);
            var x, x' := s.execs[a.e], Step(s, a).execs[a.e];
            && (a.Insert? ==> x' == Inserted(x.route, a.snap, None) && Step(s, a).listed == s.listed + {a.e})
            && (a.EarlyStop? ==> x' == x.(cell := Some(a.reason)))
            && (a.Count? ==> x' == Counted(x.route, x.snap, x.cell) && Step(s, a).active == s.active + 1)
            && (a.Spawn? ==>
                  && x'.Supervised? && x'.route == x.route && S.IsInit(x'.sup)
                  && x'.sup.core.snap == x.snap && x'.sup.env.cell == x.cell && !x'.sup.env.unseen)
  {
    Reachable(s0, acts);
    assert EntryOk(Run(s0, acts), Run(s0, acts).execs[a.e]);
  }

  lemma Overwrite<K, V>(m: map<K, V>, k: K, v: V, w: V)
    ensures m[k := v][k := w] == m[k := w]
  {
  }

  /** A request that is refused, at either semaphore, or whose record cannot be created leaves
      both semaphores as it found them. */
  lemma RefusalRestoresPermits(s: State, e: nat, route: string)
    requires route in s.routeAvailable
    ensures var s1 := Admit(s, e, route);
            && (s.available == 0 ==> s1 == Put(s, e, Rejected))
            && (s.available > 0 && s.routeAvailable[route] == 0 ==> AdmitRoute(s1, e, route) == Put(s, e, Rejected))
            && (s.available > 0 && s.routeAvailable[route] > 0 ==>
                  Refunded(AdmitRoute(s1, e, route), e, route) == Put(s, e, Rejected))
  {
    Overwrite(s.execs, e, HasGlobal(route), Rejected);
    if s.routeAvailable[route] > 0 {
      Overwrite(s.routeAvailable, route, s.routeAvailable[route] - 1, s.routeAvailable[route]);
      Overwrite(s.execs, e, HasGlobal(route), HasBoth(route));
      Overwrite(s.execs, e, HasBoth(route), Rejected);
      assert s.routeAvailable[route := s.routeAvailable[route]] == s.routeAvailable;
    }
  }

  /** A task that may still have processes: its tree has not been reported empty. */
  predicate MayHaveProcesses(x: Exec) {
    x.Supervised? && !x.sup.core.treeSeen && !x.sup.core.lateQueryFailed && !x.sup.core.errored
  }

  ghost function Busy(execs: map<nat, Exec>): set<nat> {
    set e | e in execs && MayHaveProcesses(execs[e])
  }

  ghost function BusyOn(execs: map<nat, Exec>, route: string): set<nat> {
    set e | e in execs && MayHaveProcesses(execs[e]) && execs[e].route == route
  }

  lemma SubsetCardinality(a: set<nat>, b: set<nat>)
    requires a <= b
    ensures |a| <= |b|
  {
    assert b == a + (b - a);
  }

  lemma UnconfirmedHoldsPermits(sup: S.State)
    requires SI.Safe(sup) && !sup.core.treeSeen && !sup.core.lateQueryFailed && !sup.core.errored
    ensures sup.permits
  {
  }

  lemma BusyHoldsPermits(s: State, e: nat)
    requires EntriesOk(s) && e in Busy(s.execs)
    ensures e in Holders(s.execs, Global) && e in Holders(s.execs, OfRoute(s.execs[e].route))
  {
    assert EntryOk(s, s.execs[e]);
    UnconfirmedHoldsPermits(s.execs[e].sup);
  }

  lemma BusyWithinLimits(s: State)
    requires Inv(s)
    ensures |Busy(s.execs)| <= s.limit
    ensures forall r :: r in s.routes ==> |BusyOn(s.execs, r)| <= s.routes[r].limit
  {
    forall e | e in Busy(s.execs) ensures e in Holders(s.execs, Global) {
      BusyHoldsPermits(s, e);
    }
    SubsetCardinality(Busy(s.execs), Holders(s.execs, Global));
    forall r | r in s.routes ensures |BusyOn(s.execs, r)| <= s.routes[r].limit {
      forall e | e in BusyOn(s.execs, r) ensures e in Holders(s.execs, OfRoute(r)) {
        BusyHoldsPermits(s, e);
      }
      SubsetCardinality(BusyOn(s.execs, r), Holders(s.execs, OfRoute(r)));
    }
  }

  /** Barring supervisor errors, tasks that may still have processes never exceed the global
      limit or the limit of their route. */
  lemma RunningTasksWithinLimits(s0: State, acts: seq<Action>)
    requires IsInit(s0) && CanRun(s0, acts)
    ensures var s := Run(s0, acts);
            && |Busy(s.execs)| <= s.limit
            && (forall r :: r in s.routes ==> |BusyOn(s.execs, r)| <= s.routes[r].limit)
  {
    Reachable(s0, acts);
    BusyWithinLimits(Run(s0, acts));
  }

  // ---- Drain ----

  /** active_count is exactly the number of counted tasks that have not called mark_finished. */
  lemma ActiveCountIsExact(s0: State, acts: seq<Action>)
    requires IsInit(s0) && CanRun(s0, acts)
    ensures var s := Run(s0, acts); s.active == |Holders(s.execs, Active)| && s.active >= 0
  {
    Reachable(s0, acts);
  }

  lemma DoneIsTerminal(sup: S.State)
    requires SI.Safe(sup) && sup.pc.Done?
    ensures IsFinished(sup.core.snap.status) && !sup.permits
  {
  }

  /** A drained entry is refused or terminal, holds no permit, and recovers as it was. */
  ghost predicate Settled(x: Exec, e: nat, stamp: Timestamp) {
    && (x.Rejected? || (SnapshotOf(x).Some? && IsFinished(SnapshotOf(x).value.status)))
    && (x.Supervised? && !x.sup.persistFailed ==> E.Transparent(x.sup, e, stamp))
  }

  lemma DrainedIsDone(s: State, e: nat)
    requires Inv(s) && s.driver.Drained? && e in s.execs
    ensures AtRest(s.execs[e]) && EntryOk(s, s.execs[e]) && (s.execs[e].Supervised? ==> s.execs[e].sup.pc.Done?)
  {
    assert Holders(s.execs, Active) == {};
    assert e !in Holders(s.execs, Active);
  }

  lemma DrainedEntry(s: State, e: nat, stamp: Timestamp)
    requires Inv(s) && s.driver.Drained? && e in s.execs
    ensures Settled(s.execs[e], e, stamp) && !Holds(Global, s.execs[e])
  {
    var x := s.execs[e];
    DrainedIsDone(s, e);
    if x.Supervised? {
      DoneIsTerminal(x.sup);
      if !x.sup.persistFailed { E.FinishedIsTransparent(x.sup, e, stamp); }
    }
  }

  lemma NoHolders(s: State)
    requires PermitsConserved(s) && forall e :: e in s.execs ==> !Holds(Global, s.execs[e])
    ensures s.available == s.limit && s.routeAvailable.Keys == s.routes.Keys
    ensures forall r :: r in s.routes ==> s.routeAvailable[r] == s.routes[r].limit
  {
    assert Holders(s.execs, Global) == {};
    forall r | r in s.routes ensures s.routeAvailable[r] == s.routes[r].limit {
      assert Holders(s.execs, OfRoute(r)) == {};
    }
  }

  /** When the drain succeeds, every task in memory is terminal and all permits are back,
      whatever failed to persist; and the next generation recovers each task whose persists all
      succeeded as clients saw it last, but for `output_truncated`. */
  lemma DrainIsSafe(s0: State, acts: seq<Action>, stamp: Timestamp)
    requires IsInit(s0) && CanRun(s0, acts) && Run(s0, acts).driver.Drained?
    ensures var s := Run(s0, acts);
            && s.active == 0 && s.available == s.limit && s.routeAvailable.Keys == s.routes.Keys
            && (forall r :: r in s.routes ==> s.routeAvailable[r] == s.routes[r].limit)
            && (forall e :: e in s.execs ==> Settled(s.execs[e], e, stamp))
  {
    Reachable(s0, acts);
    var s := Run(s0, acts);
    forall e | e in s.execs ensures Settled(s.execs[e], e, stamp) && !Holds(Global, s.execs[e]) {
      DrainedEntry(s, e, stamp);
    }
    NoHolders(s);
  }

}