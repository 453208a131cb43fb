/** From one generation to the next (src/store.rs, `TaskStore::open`; src/runtime.rs, `run`): what a
    drained service has on disk is what the next one starts with. */
module Restart {
  import opened TaskModel
  import opened Service
  import S = Supervisor
  import SI = SupervisorInvariant
  import E = EventLog

  // ---- Memory and disk ----

  /** The log of an entry of the task map: the one its supervisor has written, or, for a task that
      was recovered, one that yields the snapshot in memory. */
  predicate LogMatches(x: Exec, lines: seq<Line>) {
    match x
    case Supervised(_, sup) => lines == sup.log
    case Recovered(snap) => E.LastRecord(lines).Some? && SameButTruncation(E.LastRecord(lines).value, snap)
    case _ => false
  }

  /** A directory that holds at most a well-formed log of the task it is named after; one that
      nobody has in memory, for it could not be deleted, is still of this kind. */
  predicate WellNamed(p: nat, d: E.Directory) {
    d.log.Lines? && E.LastRecord(d.log.lines).Some? ==>
      var snap := E.LastRecord(d.log.lines).value; snap.taskId == p && StampedIffFinished(snap)
  }

  /** The disk of a service: one directory for every task in its map, and what was left over. */
  predicate OnDisk(s: State, disk: map<nat, E.Directory>) {
    && (forall e :: e in s.listed ==>
          e in s.execs && e in disk && disk[e].kind.Dir? && disk[e].log.Lines? && LogMatches(s.execs[e], disk[e].log.lines))
    && (forall p :: p in disk && p !in s.listed ==> WellNamed(p, disk[p]))
  }

  /** The snapshot that clients see. */
  function Shown(x: Exec): Option<TaskSnapshot> {
    match x
    case Supervised(_, sup) => Some(E.View(E.TaskRecord(sup.core.snap, sup.env.truncated, 0)))
    case _ => SnapshotOf(x)
  }

  /** No persist of this task has failed. */
  predicate FullyPersisted(x: Exec) {
    x.Supervised? ==> !x.sup.persistFailed
  }

  // ---- What recovery finds ----

  /** Recovery of one directory: a well-formed terminal record that carries its name. */
  predicate WellRecovered(p: nat, record: E.TaskRecord) {
    && record.directory == p && record.stored.taskId == p && !record.truncated
    && IsFinished(record.stored.status) && StampedIffFinished(record.stored)
  }

  lemma DirectoryRecovers(p: nat, d: E.Directory, stamp: Timestamp)
    requires WellNamed(p, d)
    ensures E.RecordOf(p, d, stamp).Some? ==> WellRecovered(p, E.RecordOf(p, d, stamp).value)
    ensures WellNamed(p, E.AfterRecovery(p, d, stamp))
  {
  }

  /** The last line of a supervisor's log is a well-formed stage of its task. */
  lemma SupervisorLogIsWellNamed(sup: S.State, p: nat, d: E.Directory)
    requires SI.Safe(sup) && sup.core.snap.taskId == p && d.log == E.Lines(sup.log)
    ensures WellNamed(p, d) && E.LastRecord(sup.log).Some?
  {
    var n := |sup.log| - 1;
    assert SI.LineOk(sup.log[n], sup.core.snap);
  }

  lemma TaskIsOnDisk(s: State, disk: map<nat, E.Directory>, e: nat)
    requires Inv(s) && Named(s) && OnDisk(s, disk) && e in s.listed
    ensures WellNamed(e, disk[e]) && E.LastRecord(disk[e].log.lines).Some?
  {
    var x := s.execs[e];
    assert EntryOk(s, x);
    if x.Supervised? {
      SupervisorLogIsWellNamed(x.sup, e, disk[e]);
    }
  }

  lemma AllAreNamed(s: State, disk: map<nat, E.Directory>)
    requires Inv(s) && Named(s) && OnDisk(s, disk)
    ensures forall p :: p in disk ==> WellNamed(p, disk[p])
    ensures E.IdsArePaths(disk)
  {
    forall p | p in disk ensures WellNamed(p, disk[p]) {
      if p in s.listed { TaskIsOnDisk(s, disk, p); }
    }
  }

  /** A drained task whose persists all succeeded recovers as clients saw it last. */
  lemma TaskRecovers(s: State, disk: map<nat, E.Directory>, e: nat, stamp: Timestamp)
    requires Inv(s) && Named(s) && s.driver.Drained? && OnDisk(s, disk) && e in s.listed && FullyPersisted(s.execs[e])
    ensures var r := E.RecordOf(e, disk[e], stamp);
            r.Some? && Shown(s.execs[e]).Some? && SameButTruncation(E.View(r.value), Shown(s.execs[e]).value)
  {
    var x := s.execs[e];
    assert EntryOk(s, x);
    DrainedEntry(s, e, stamp);
  }

  // ---- The next generation ----

  /** The service that starts with `tasks` in memory. */
  function NextState(limit: nat, routes: map<string, Route>, retention: nat, tasks: map<nat, E.TaskRecord>): State {
    State(limit, routes, retention, limit, map r | r in routes :: routes[r].limit,
          map p | p in tasks :: Recovered(E.View(tasks[p])), tasks.Keys, 0, 0, Serving, 0, 0, {})
  }

  /** Task `e` is in the next generation exactly if it has not expired, and as clients saw it last. */
  predicate CarriedOver(x: Exec, e: nat, now: Timestamp, retention: nat, next: State)
    requires retention < U64_SPAN
  {
    && Shown(x).Some? && Shown(x).value.finishedAt.Some?
    && (e in next.execs <==> !E.Expired(now, Shown(x).value.finishedAt.value, retention))
    && (e in next.execs ==> next.execs[e].Recovered? && SameButTruncation(next.execs[e].snap, Shown(x).value))
  }

  lemma OpenedTask(disk0: map<nat, E.Directory>, clock: map<nat, Timestamp>, now: Timestamp, retention: nat, stuck: set<nat>,
                   tasks: map<nat, E.TaskRecord>, disk: map<nat, E.Directory>, p: nat)
    requires retention < U64_SPAN && E.OpenedFrom(disk0, clock, now, retention, stuck, tasks, disk)
    requires p in tasks && WellNamed(p, disk0[p])
    ensures WellRecovered(p, tasks[p]) && disk[p].kind.Dir? && disk[p].log.Lines?
    ensures LogMatches(Recovered(E.View(tasks[p])), disk[p].log.lines)
  {
    DirectoryRecovers(p, disk0[p], clock[p]);
  }

  lemma TaskIsCarriedOver(s: State, disk0: map<nat, E.Directory>, clock: map<nat, Timestamp>, now: Timestamp,
                          limit: nat, routes: map<string, Route>, retention: nat, stuck: set<nat>,
                          tasks: map<nat, E.TaskRecord>, disk: map<nat, E.Directory>, e: nat)
    requires Inv(s) && Named(s) && s.driver.Drained? && OnDisk(s, disk0) && e in s.listed && FullyPersisted(s.execs[e])
    requires retention < U64_SPAN && E.OpenedFrom(disk0, clock, now, retention, stuck, tasks, disk)
    ensures CarriedOver(s.execs[e], e, now, retention, NextState(limit, routes, retention, tasks))
  {
    TaskRecovers(s, disk0, e, clock[e]);
    TaskIsOnDisk(s, disk0, e);
    DirectoryRecovers(e, disk0[e], clock[e]);
  }

  lemma NextIsInit(limit: nat, routes: map<string, Route>, retention: nat, tasks: map<nat, E.TaskRecord>)
    requires forall p :: p in tasks ==> WellRecovered(p, tasks[p])
    ensures IsInit(NextState(limit, routes, retention, tasks))
  {
  }

  lemma NextIsOnDisk(limit: nat, routes: map<string, Route>, retention: nat, tasks: map<nat, E.TaskRecord>,
                     disk: map<nat, E.Directory>)
    requires forall p :: p in tasks ==>
               && p in disk && disk[p].kind.Dir? && disk[p].log.Lines?
               && LogMatches(Recovered(E.View(tasks[p])), disk[p].log.lines)
    requires forall p :: p in disk ==> WellNamed(p, disk[p])
    ensures OnDisk(NextState(limit, routes, retention, tasks), disk)
  {
  }

  lemma NextIsReady(disk0: map<nat, E.Directory>, clock: map<nat, Timestamp>, now: Timestamp,
                    limit: nat, routes: map<string, Route>, retention: nat, stuck: set<nat>,
                    tasks: map<nat, E.TaskRecord>, disk: map<nat, E.Directory>)
    requires retention < U64_SPAN && E.OpenedFrom(disk0, clock, now, retention, stuck, tasks, disk)
    requires forall p :: p in disk0 ==> WellNamed(p, disk0[p])
    ensures IsInit(NextState(limit, routes, retention, tasks))
    ensures OnDisk(NextState(limit, routes, retention, tasks), disk)
  {
    forall p | p in tasks
      ensures WellRecovered(p, tasks[p]) && p in disk && disk[p].kind.Dir? && disk[p].log.Lines?
      ensures LogMatches(Recovered(E.View(tasks[p])), disk[p].log.lines)
    {
      OpenedTask(disk0, clock, now, retention, stuck, tasks, disk, p);
    }
    forall p | p in disk ensures WellNamed(p, disk[p]) {
      DirectoryRecovers(p, disk0[p], clock[p]);
    }
    NextIsInit(limit, routes, retention, tasks);
    NextIsOnDisk(limit, routes, retention, tasks, disk);
  }

  /** The next generation `next`, started on what a drained service `s` left on disk. */
  ghost predicate Continues(s: State, now: Timestamp, next: State, disk: map<nat, E.Directory>) {
    && IsInit(next) && OnDisk(next, disk) && next.retention < U64_SPAN
    && forall e :: e in s.listed && e in s.execs && FullyPersisted(s.execs[e]) ==>
         CarriedOver(s.execs[e], e, now, next.retention, next)
  }

  lemma NextContinues(s: State, disk0: map<nat, E.Directory>, clock: map<nat, Timestamp>, now: Timestamp,
                      limit: nat, routes: map<string, Route>, retention: nat, stuck: set<nat>,
                      tasks: map<nat, E.TaskRecord>, disk: map<nat, E.Directory>)
    requires Inv(s) && Named(s) && s.driver.Drained? && OnDisk(s, disk0)
    requires retention < U64_SPAN && E.OpenedFrom(disk0, clock, now, retention, stuck, tasks, disk)
    ensures Continues(s, now, NextState(limit, routes, retention, tasks), disk)
    ensures NextState(limit, routes, retention, tasks).execs.Keys <= disk0.Keys
  {
    var next := NextState(limit, routes, retention, tasks);
    AllAreNamed(s, disk0);
    NextIsReady(disk0, clock, now, limit, routes, retention, stuck, tasks, disk);
    forall e | e in s.listed && e in s.execs && FullyPersisted(s.execs[e])
      ensures CarriedOver(s.execs[e], e, now, retention, next)
    {
      TaskIsCarriedOver(s, disk0, clock, now, limit, routes, retention, stuck, tasks, disk, e);
    }
  }

  // ---- A whole generation ----

  /** What a generation has made of the disk `disk0` it started on: supervisors have written their
      logs, nobody has touched the logs of recovered tasks. */
  predicate Written(s: State, disk0: map<nat, E.Directory>, disk: map<nat, E.Directory>) {
    && (forall e :: e in s.listed && e in s.execs && s.execs[e].Supervised? ==>
          e in disk && disk[e].kind.Dir? && disk[e].log == E.Lines(s.execs[e].sup.log))
    && (forall e :: e in s.listed && e in s.execs && s.execs[e].Recovered? ==>
          e in disk && e in disk0 && disk[e] == disk0[e])
    && (forall p :: p in disk && p !in s.listed ==> WellNamed(p, disk[p]))
  }

  lemma StepKeepsRecovered(s: State, a: Action, e: nat)
    requires Enabled(s, a) && e in Step(s, a).execs && Step(s, a).execs[e].Recovered?
    ensures e in s.execs && s.execs[e] == Step(s, a).execs[e]
  {
    OnlyActorChanges(s, a);
  }

  lemma {:induction false} RecoveredIsOld(s: State, acts: seq<Action>, e: nat)
    requires CanRun(s, acts) && e in Run(s, acts).execs && Run(s, acts).execs[e].Recovered?
    ensures e in s.execs && s.execs[e] == Run(s, acts).execs[e]
    decreases |acts|
  {
    if acts != [] {
      RecoveredIsOld(Step(s, acts[0]), acts[1..], e);
      StepKeepsRecovered(s, acts[0], e);
    }
  }

  lemma DrainedIsOnDisk(s0: State, disk0: map<nat, E.Directory>, acts: seq<Action>, disk: map<nat, E.Directory>)
    requires IsInit(s0) && OnDisk(s0, disk0) && CanRun(s0, acts) && Run(s0, acts).driver.Drained?
    requires Written(Run(s0, acts), disk0, disk)
    ensures Inv(Run(s0, acts)) && Named(Run(s0, acts)) && OnDisk(Run(s0, acts), disk)
  {
    var s := Run(s0, acts);
    Reachable(s0, acts);
    InitInv(s0);
    RunKeepsNamed(s0, acts);
    forall e | e in s.listed
      ensures e in s.execs && e in disk && disk[e].kind.Dir? && disk[e].log.Lines? && LogMatches(s.execs[e], disk[e].log.lines)
    {
      assert AtRest(s.execs[e]) && SnapshotOf(s.execs[e]).Some?;
      if s.execs[e].Recovered? { RecoveredIsOld(s0, acts, e); }
    }
  }

  /** Over every run of a generation that drains, whatever it admitted, refused, stopped, failed or
      cleaned up: the store that the next generation opens on its disk gives a proper initial
      state of the service, whose disk matches again; every task in memory whose persists all
      succeeded is there exactly if it has not expired, and looks as clients saw it last but for
      `output_truncated`. So the statement carries over from generation to generation. */
  lemma GenerationContinues(s0: State, disk0: map<nat, E.Directory>, acts: seq<Action>, disk1: map<nat, E.Directory>,
                            clock: map<nat, Timestamp>, now: Timestamp,
                            limit: nat, routes: map<string, Route>, retention: nat, stuck: set<nat>,
                            tasks: map<nat, E.TaskRecord>, disk: map<nat, E.Directory>)
    requires IsInit(s0) && OnDisk(s0, disk0) && CanRun(s0, acts) && Run(s0, acts).driver.Drained?
    requires Written(Run(s0, acts), disk0, disk1)
    requires retention < U64_SPAN && E.OpenedFrom(disk1, clock, now, retention, stuck, tasks, disk)
    ensures Continues(Run(s0, acts), now, NextState(limit, routes, retention, tasks), disk)
  {
    DrainedIsOnDisk(s0, disk0, acts, disk1);
    NextContinues(Run(s0, acts), disk1, clock, now, limit, routes, retention, stuck, tasks, disk);
  }

  /** `TaskStore::open` at the start of the next generation. */
  method OpenNext(s: State, store: E.TaskStore, clock: map<nat, Timestamp>, listing: E.Listing, now: Timestamp,
                  stuck: set<nat>, limit: nat, routes: map<string, Route>)
    returns (ok: bool, next: State)
    requires Inv(s) && Named(s) && s.driver.Drained? && OnDisk(s, store.disk)
    requires store.Valid() && store.tasks == map[] && clock.Keys == store.disk.Keys
    modifies store
    ensures ok <==>
              && E.ListsAll(listing, |old(store.disk)|)
              && E.NoneBlocks(old(store.disk), clock)
    ensures ok ==> next.retention == store.retention && Continues(s, now, next, store.disk)
  {
    ghost var disk0 := store.disk;
    AllAreNamed(s, disk0);
    ok := store.Open(clock, listing, now, stuck);
    next := NextState(limit, routes, store.retention, store.tasks);
    if ok {
      NextContinues(s, disk0, clock, now, limit, routes, store.retention, stuck, store.tasks, store.disk);
    }
  }
}
