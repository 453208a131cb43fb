/** Cleanup beside running tasks (src/store.rs, `cleanup_expired`): what leaves the task map, when,
    and that nothing else does. */
module Cleanup {
  import opened TaskModel
  import opened Service
  import E = EventLog

  /** Task `e` is terminal and finished at least the retention period before the scan. */
  predicate PastRetention(s: State, e: nat) {
    && e in s.execs && SnapshotOf(s.execs[e]).Some?
    && var snap := SnapshotOf(s.execs[e]).value;
    && IsFinished(snap.status) && snap.finishedAt.Some?
    && s.cleanupNow - snap.finishedAt.value >= s.retention * NANOS
  }

  lemma DoomedIsPastRetention(s: State, e: nat)
    requires Inv(s) && e in s.doomed && 1 <= s.retention <= I64_MAX
    ensures PastRetention(s, e)
  {
    assert DoomedOk(s, e);
    E.ExpiresExactlyAfterRetention(s.cleanupNow, SnapshotOf(s.execs[e]).value.finishedAt.value, s.retention);
  }

  /** How one step changes the task map. */
  lemma MapStep(s: State, a: Action)
    requires Enabled(s, a)
    ensures a.CleanupRemove? ==> Step(s, a).listed == s.listed - {a.e} && Step(s, a).execs == s.execs
    ensures a.Insert? ==> Step(s, a).listed == s.listed + {a.e}
    ensures !a.CleanupRemove? && !a.Insert? ==> Step(s, a).listed == s.listed
  {
  }

  /** Step `i` of the run removes `e`, which is past retention, and `e` alone. */
  predicate RemovedAt(s: State, acts: seq<Action>, e: nat, i: nat)
    requires CanRun(s, acts) && i < |acts|
  {
    && acts[i] == CleanupRemove(e) && e in At(s, acts, i).listed && PastRetention(At(s, acts, i), e)
    && At(s, acts, i + 1).listed == At(s, acts, i).listed - {e}
    && At(s, acts, i + 1).execs == At(s, acts, i).execs
  }

  lemma RemovalStep(s: State, a: Action, e: nat)
    requires Inv(s) && 1 <= s.retention <= I64_MAX && Enabled(s, a) && e in s.listed && e !in Step(s, a).listed
    ensures a == CleanupRemove(e) && PastRetention(s, e)
    ensures Step(s, a).listed == s.listed - {e} && Step(s, a).execs == s.execs
  {
    MapStep(s, a);
    DoomedIsPastRetention(s, e);
  }

  /** Somewhere on the way the task leaves the map. */
  lemma {:induction false} LeavesSomewhere(s: State, acts: seq<Action>, e: nat, m: nat) returns (i: nat)
    requires CanRun(s, acts) && m <= |acts| && e in s.listed && e !in At(s, acts, m).listed
    ensures i < m && e in At(s, acts, i).listed && e !in At(s, acts, i + 1).listed
  {
    if e in At(s, acts, m - 1).listed {
      i := m - 1;
    } else {
      i := LeavesSomewhere(s, acts, e, m - 1);
    }
  }

  lemma RemovalAt(s: State, acts: seq<Action>, e: nat, i: nat)
    requires Inv(s) && 1 <= s.retention <= I64_MAX && CanRun(s, acts) && i < |acts|
    requires e in At(s, acts, i).listed && e !in At(s, acts, i + 1).listed
    ensures RemovedAt(s, acts, e, i)
  {
    AtNext(s, acts, i);
    AtKeepsInv(s, acts, i);
    AtIsRun(s, acts, i);
    LimitsAreFixed(s, acts[..i]);
    RemovalStep(At(s, acts, i), acts[i], e);
  }

  /** Between any two moments of any run, a task that has left the task map left it by a step of
      cleanup that removed it alone, and was then terminal and past retention. */
  lemma CleanupSparesLiveTasks(s0: State, first: seq<Action>, rest: seq<Action>, e: nat) returns (i: nat)
    requires IsInit(s0) && 1 <= s0.retention <= I64_MAX && CanRun(s0, first) && CanRun(Run(s0, first), rest)
    requires e in Run(s0, first).listed && e !in Run(Run(s0, first), rest).listed
    ensures i < |rest| && RemovedAt(Run(s0, first), rest, e, i)
  {
    Reachable(s0, first);
    LimitsAreFixed(s0, first);
    AtIsRun(Run(s0, first), rest, |rest|);
    assert rest[..|rest|] == rest;
    i := LeavesSomewhere(Run(s0, first), rest, e, |rest|);
    RemovalAt(Run(s0, first), rest, e, i);
  }

  lemma StepKeepsUnlisted(s: State, a: Action, e: nat)
    requires Enabled(s, a) && e in s.execs && SnapshotOf(s.execs[e]).Some? && e !in s.listed
    ensures e in Step(s, a).execs && SnapshotOf(Step(s, a).execs[e]).Some? && e !in Step(s, a).listed
  {
    OnlyActorChanges(s, a);
  }

  /** A task that has been removed is never listed again. */
  lemma {:induction false} RemovedStaysRemoved(s: State, acts: seq<Action>, e: nat)
    requires CanRun(s, acts) && e in s.execs && SnapshotOf(s.execs[e]).Some? && e !in s.listed
    ensures e !in Run(s, acts).listed
    decreases |acts|
  {
    if acts != [] {
      StepKeepsUnlisted(s, acts[0], e);
      RemovedStaysRemoved(Step(s, acts[0]), acts[1..], e);
    }
  }

  lemma ScanIff(s: State, e: nat, now: Timestamp)
    requires Inv(s) && Named(s) && 1 <= s.retention <= I64_MAX && e in s.listed
    ensures Enabled(s.(cleanupNow := now, doomed := {}), CleanupScan(e)) <==> PastRetention(s.(cleanupNow := now), e)
  {
    assert EntryOk(s, s.execs[e]);
    var finishedAt := SnapshotOf(s.execs[e]).value.finishedAt;
    if finishedAt.Some? { E.ExpiresExactlyAfterRetention(now, finishedAt.value, s.retention); }
  }

  lemma CleanupRun(s: State, e: nat, now: Timestamp)
    ensures var cleanup := [CleanupStart(now), CleanupScan(e), CleanupRemove(e)];
            && (CanRun(s, cleanup) <==> Enabled(s.(cleanupNow := now, doomed := {}), CleanupScan(e)))
            && (CanRun(s, cleanup) ==> Run(s, cleanup) == s.(cleanupNow := now, doomed := {}, listed := s.listed - {e}))
  {
    var cleanup := [CleanupStart(now), CleanupScan(e), CleanupRemove(e)];
    var s1 := s.(cleanupNow := now, doomed := {});
    assert cleanup[1..] == [CleanupScan(e), CleanupRemove(e)] && cleanup[1..][1..] == [CleanupRemove(e)];
    assert [CleanupRemove(e)][1..] == [];
    assert Step(s, CleanupStart(now)) == s1;
    if Enabled(s1, CleanupScan(e)) {
      var s2 := s1.(doomed := {} + {e});
      assert Step(s1, CleanupScan(e)) == s2;
      var s3 := s2.(doomed := {}, listed := s.listed - {e});
      assert {e} - {e} == {};
      assert Step(s2, CleanupRemove(e)) == s3;
      assert CanRun(s3, []) && CanRun(s2, [CleanupRemove(e)]);
      assert Run(s2, [CleanupRemove(e)]) == s3;
    }
  }

  /** Cleanup can remove a listed task if and only if it is terminal and has expired, and then that
      task is all that goes. */
  lemma ExpiredCanBeRemoved(s0: State, acts: seq<Action>, e: nat, now: Timestamp)
    requires IsInit(s0) && 1 <= s0.retention <= I64_MAX && CanRun(s0, acts) && e in Run(s0, acts).listed
    ensures var s := Run(s0, acts);
            var cleanup := [CleanupStart(now), CleanupScan(e), CleanupRemove(e)];
            && (CanRun(s, cleanup) <==> PastRetention(s.(cleanupNow := now), e))
            && (CanRun(s, cleanup) ==> Run(s, cleanup) == s.(cleanupNow := now, doomed := {}, listed := s.listed - {e}))
  {
    var s := Run(s0, acts);
    Reachable(s0, acts);
    InitInv(s0);
    RunKeepsNamed(s0, acts);
    LimitsAreFixed(s0, acts);
    CleanupRun(s, e, now);
    assert EntryOk(s, s.execs[e]);
    ScanIff(s, e, now);
  }
}
