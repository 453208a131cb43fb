/** Concrete runs of the supervisor, put together step by step: they show that a state described
    by some theorem is reached. */
module SupervisorRuns {
  import opened TaskModel
  import opened Supervisor

  /** A route with one output stream. */
  const ONE_READER := Config(60, 5, 1)

  const SUCCESS := ExitStatus(Some(0))

  // ---- Putting runs together ----

  /** `acts` leads from `s0` to `s`. */
  predicate LeadsTo(s0: State, acts: seq<Action>, s: State) {
    CanRun(ONE_READER, s0, acts) && Run(ONE_READER, s0, acts) == s
  }

  lemma {:induction false} Then(s0: State, acts: seq<Action>, s: State, a: Action, s': State)
    requires LeadsTo(s0, acts, s) && Enabled(ONE_READER, s, a) && Apply(ONE_READER, s, a) == s'
    ensures LeadsTo(s0, acts + [a], s')
    decreases |acts|
  {
    if acts == [] {
      assert [a][1..] == [];
      assert CanRun(ONE_READER, s', []);
    } else {
      Then(Apply(ONE_READER, s0, acts[0]), acts[1..], s, a, s');
      assert (acts + [a])[1..] == acts[1..] + [a];
    }
  }

  /** A supervisor step whose effect is `s'`. */
  lemma ThenSupervisor(s0: State, acts: seq<Action>, s: State, a: Action, s': State)
    requires LeadsTo(s0, acts, s) && Polled(s) == s
    requires !IsEnvironment(a) && SupervisorEnabled(ONE_READER, s, a) && ApplySupervisor(ONE_READER, s, a) == s'
    ensures LeadsTo(s0, acts + [a], s')
  {
    Then(s0, acts, s, a, s');
  }

  lemma ThenEnvironment(s0: State, acts: seq<Action>, s: State, a: Action, e: Env)
    requires LeadsTo(s0, acts, s) && IsEnvironment(a) && EnvironmentEnabled(s.env, a) && ApplyEnvironment(s.env, a) == e
    ensures LeadsTo(s0, acts + [a], s.(env := e))
  {
    Then(s0, acts, s, a, s.(env := e));
  }

  // ---- Phases of a task that runs well ----

  /** One reader is open and the worker is about to be spawned. */
  lemma Captures(snap: TaskSnapshot) returns (acts: seq<Action>, s: State)
    requires IsFresh(snap)
    ensures IsInit(Init(snap, None)) && LeadsTo(Init(snap, None), acts, s)
    ensures s == Init(snap, None).(pc := Spawning, env := Init(snap, None).env.(readers := [Reading]))
  {
    var s0 := Init(snap, None);
    var s1 := ReaderOpened(s0);
    s := s1.(pc := Spawning);
    ThenSupervisor(s0, [], s0, OpenReader, s1);
    ThenSupervisor(s0, [OpenReader], s1, ReadersOpened, s);
    acts := [OpenReader] + [ReadersOpened];
  }

  /** The worker is running; that status has yet to be persisted. */
  lemma Starts(s0: State, acts: seq<Action>, s: State) returns (acts': seq<Action>, s': State)
    requires LeadsTo(s0, acts, s) && s.pc.Spawning? && !s.env.spawned
    ensures LeadsTo(s0, acts', s')
    ensures s'.pc == Persisting(Selecting) && s'.env == s.env.(spawned := true)
    ensures s'.core == s.core.(snap := s.core.snap.(status := Running, startedAt := Some(0), outputTruncated := s.env.truncated))
    ensures s'.permits == s.permits && s'.persistFailed == s.persistFailed
  {
    var spawned := WorkerSpawned(s);
    s' := Started(spawned, 0);
    ThenSupervisor(s0, acts, s, Spawn, spawned);
    ThenSupervisor(s0, acts + [Spawn], spawned, SpecSent(0), s');
    acts' := acts + [Spawn] + [SpecSent(0)];
  }

  /** The script prints more than the budget allows, when `truncates`, and ends. */
  lemma Prints(s0: State, acts: seq<Action>, s: State, truncates: bool) returns (acts': seq<Action>, s': State)
    requires LeadsTo(s0, acts, s) && s.env.spawned && s.env.readers == [Reading]
    ensures LeadsTo(s0, acts', s')
    ensures s' == s.(env := s.env.(readers := [ReaderOk], truncated := s.env.truncated || truncates))
  {
    acts', s' := acts, s;
    if truncates {
      assert s.env.readers[0].Reading?;
      s' := s.(env := s.env.(truncated := true));
      ThenEnvironment(s0, acts, s, OutputTruncates, s'.env);
      acts' := acts + [OutputTruncates];
    }
    var ended := s'.env.(readers := [ReaderOk]);
    assert s'.env.readers[0 := ReaderOk] == [ReaderOk];
    ThenEnvironment(s0, acts', s', ReaderEnds(0), ended);
    acts', s' := acts' + [ReaderEnds(0)], s'.(env := ended);
  }

  lemma Persists(s0: State, acts: seq<Action>, s: State) returns (acts': seq<Action>, s': State)
    requires LeadsTo(s0, acts, s) && s.pc.Persisting?
    ensures LeadsTo(s0, acts', s')
    ensures s'.pc == s.pc.next && s'.core == s.core && s'.env == s.env
    ensures s'.permits == s.permits && s'.persistFailed == s.persistFailed
  {
    s' := Persisted(ONE_READER, s);
    ThenSupervisor(s0, acts, s, PersistOk, s');
    acts' := acts + [PersistOk];
  }

  lemma PersistFails(s0: State, acts: seq<Action>, s: State) returns (acts': seq<Action>, s': State)
    requires LeadsTo(s0, acts, s) && s.pc.Persisting? && !s.core.errored
    ensures LeadsTo(s0, acts', s')
    ensures s'.pc == Failing && s'.core == s.core.(errored := true) && s'.env == s.env
  {
    s' := PersistFailed(s, false);
    ThenSupervisor(s0, acts, s, PersistFail(false), s');
    acts' := acts + [PersistFail(false)];
  }

  /** The worker exits with code 0 and is seen to. */
  lemma Exits(s0: State, acts: seq<Action>, s: State) returns (acts': seq<Action>, s': State)
    requires LeadsTo(s0, acts, s) && s.pc.Selecting? && s.env.spawned && s.env.worker.None? && !s.core.workerSeen
    ensures LeadsTo(s0, acts', s')
    ensures s' == s.(pc := LateTree, env := s.env.(worker := Some(SUCCESS)),
                     core := s.core.(workerSeen := true, exit := Some(SUCCESS)))
  {
    var exited := s.(env := s.env.(worker := Some(SUCCESS)));
    s' := ObserveWorker(exited);
    ThenEnvironment(s0, acts, s, WorkerExits(SUCCESS), exited.env);
    ThenSupervisor(s0, acts + [WorkerExits(SUCCESS)], exited, WorkerObserved, s');
    acts' := acts + [WorkerExits(SUCCESS)] + [WorkerObserved];
  }

  /** The query of the process tree fails, and nobody looks. */
  lemma QueryFails(s0: State, acts: seq<Action>, s: State) returns (acts': seq<Action>, s': State)
    requires LeadsTo(s0, acts, s) && s.pc.LateTree?
    ensures LeadsTo(s0, acts', s')
    ensures s' == s.(pc := Joining(0), core := s.core.(lateQueryFailed := true))
  {
    s' := LateErrorIgnored(s);
    ThenSupervisor(s0, acts, s, LateQueryError, s');
    acts' := acts + [LateQueryError];
  }

  /** The process tree is empty and is seen to be. */
  lemma TreeEnds(s0: State, acts: seq<Action>, s: State) returns (acts': seq<Action>, s': State)
    requires LeadsTo(s0, acts, s) && s.pc.LateTree?
    ensures LeadsTo(s0, acts', s')
    ensures s' == s.(pc := Joining(0), env := s.env.(treeEmpty := true), core := s.core.(treeSeen := true))
  {
    var drained := s.(env := s.env.(treeEmpty := true));
    s' := ObserveTree(drained);
    ThenEnvironment(s0, acts, s, TreeDrains, drained.env);
    ThenSupervisor(s0, acts + [TreeDrains], drained, TreeObserved, s');
    acts' := acts + [TreeDrains] + [TreeObserved];
  }

  /** The only reader is joined. */
  lemma Joins(s0: State, acts: seq<Action>, s: State) returns (acts': seq<Action>, s': State)
    requires LeadsTo(s0, acts, s) && s.pc == Joining(0) && s.env.readers == [ReaderOk]
    ensures LeadsTo(s0, acts', s')
    ensures s' == s.(pc := Releasing)
  {
    var joined := s.(pc := Joining(1));
    s' := s.(pc := Releasing);
    ThenSupervisor(s0, acts, s, JoinReader, joined);
    ThenSupervisor(s0, acts + [JoinReader], joined, JoinReader, s');
    acts' := acts + [JoinReader] + [JoinReader];
  }

  /** The permits are released and the terminal status is written to memory. */
  lemma Publishes(s0: State, acts: seq<Action>, s: State) returns (acts': seq<Action>, s': State)
    requires LeadsTo(s0, acts, s) && s.pc.Releasing?
    ensures LeadsTo(s0, acts', s')
    ensures s'.pc == Persisting(Returned) && s'.env == s.env && !s'.permits && s'.persistFailed == s.persistFailed
    ensures s'.core == s.core.(snap := s'.core.snap, published := true)
    ensures s'.core.snap.status == FinalStatus(s.core.stopReason, s.core.exit)
  {
    var released := s.(permits := false, pc := Publishing);
    s' := Published(released, 1);
    ThenSupervisor(s0, acts, s, Release, released);
    ThenSupervisor(s0, acts + [Release], released, Publish(1), s');
    acts' := acts + [Release] + [Publish(1)];
  }

  lemma Finishes(s0: State, acts: seq<Action>, s: State) returns (acts': seq<Action>, s': State)
    requires LeadsTo(s0, acts, s) && s.pc.Returned?
    ensures LeadsTo(s0, acts', s')
    ensures s' == s.(pc := Done)
  {
    s' := s.(pc := Done);
    ThenSupervisor(s0, acts, s, MarkFinished, s');
    acts' := acts + [MarkFinished];
  }

  // ---- Whole runs ----

  /** The script has exited with code 0, all its output read, and its exit has been seen. */
  lemma RunsToExit(snap: TaskSnapshot, truncates: bool) returns (acts: seq<Action>, s: State)
    requires IsFresh(snap)
    ensures IsInit(Init(snap, None)) && LeadsTo(Init(snap, None), acts, s)
    ensures s.pc == LateTree && s.env.readers == [ReaderOk] && s.env.truncated == truncates
    ensures s.core.stopReason == None && s.core.exit == Some(SUCCESS)
    ensures !s.core.errored && !s.core.treeSeen && !s.env.treeEmpty && !s.persistFailed
  {
    acts, s := Captures(snap);
    acts, s := Starts(Init(snap, None), acts, s);
    acts, s := Prints(Init(snap, None), acts, s, truncates);
    acts, s := Persists(Init(snap, None), acts, s);
    acts, s := Exits(Init(snap, None), acts, s);
  }

  /** The worker runs, the first persist of run_task fails and the task is Failed in memory,
      while its reader still reads. */
  lemma FailsWhileReading(snap: TaskSnapshot) returns (acts: seq<Action>, s: State)
    requires IsFresh(snap)
    ensures IsInit(Init(snap, None)) && LeadsTo(Init(snap, None), acts, s)
    ensures s.core.snap.status == Failed && s.core.errored && !s.core.published
    ensures s.env.spawned && s.env.readers == [Reading]
  {
    var s0 := Init(snap, None);
    acts, s := Captures(snap);
    acts, s := Starts(s0, acts, s);
    acts, s := PersistFails(s0, acts, s);
    var failed := Update(s, FailedSnapshot(s.core.snap, 1), Returned);
    ThenSupervisor(s0, acts, s, FailTransition(1), failed);
    acts, s := acts + [FailTransition(1)], failed;
  }
}
