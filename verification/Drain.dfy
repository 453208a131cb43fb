/** The drain at the end of a generation (src/store.rs, `wait_until_idle`, `mark_finished`;
    src/runtime.rs, `run`): exactly when a wait succeeds, what a wait that fails had seen, and that
    a drain can succeed. */
module Drain {
  import opened TaskModel
  import opened Service
  import S = Supervisor
  import SI = SupervisorInvariant
  import SP = SupervisorProgress

  // ---- What a load decides ----

  /** A load of active_count ends the wait with success if and only if no counted task is left. */
  lemma LoadIsExact(s0: State, acts: seq<Action>)
    requires IsInit(s0) && CanRun(s0, acts) && Enabled(Run(s0, acts), Load)
    ensures var s := Run(s0, acts);
            Step(s, Load).driver == if Holders(s.execs, Active) == {} then Drained else Loaded(s.driver.round)
  {
    Reachable(s0, acts);
    var s := Run(s0, acts);
    if |Holders(s.execs, Active)| == 0 { assert Holders(s.execs, Active) == {}; }
  }

  /** The last of the first `m` actions that is `a`, or -1. */
  function Last(acts: seq<Action>, m: nat, a: Action): int
    requires m <= |acts|
  {
    if m == 0 then -1 else if acts[m - 1] == a then m - 1 else Last(acts, m - 1, a)
  }

  lemma {:induction false} LastIs(acts: seq<Action>, m: nat, a: Action)
    requires m <= |acts|
    ensures var i := Last(acts, m, a);
            && -1 <= i < m && (i >= 0 ==> acts[i] == a)
            && forall k :: i < k < m ==> acts[k] != a
  {
    if m > 0 && acts[m - 1] != a { LastIs(acts, m - 1, a); }
  }

  /** Step `i` of the run, when `a` was taken for the last time before step `m`, saw a counted task. */
  ghost predicate FoundTask(s: State, acts: seq<Action>, m: nat, a: Action)
    requires CanRun(s, acts) && m <= |acts|
  {
    var i := Last(acts, m, a);
    0 <= i < m && Holders(At(s, acts, i).execs, Active) != {}
  }

  ghost predicate ExactThroughout(s: State, acts: seq<Action>)
    requires CanRun(s, acts)
  {
    forall i: nat :: i <= |acts| ==> ActiveExact(At(s, acts, i))
  }

  lemma AlwaysExact(s: State, acts: seq<Action>)
    requires Inv(s) && CanRun(s, acts)
    ensures ExactThroughout(s, acts)
  {
    forall i: nat | i <= |acts| ensures ActiveExact(At(s, acts, i)) {
      AtKeepsInv(s, acts, i);
    }
  }

  predicate HasLooked(d: Driver) { d.Loaded? || d.Waiting? }

  lemma LookStep(s: State, a: Action)
    requires ActiveExact(s) && Enabled(s, a) && HasLooked(Step(s, a).driver)
    ensures if a.Load? then Holders(s.execs, Active) != {} else HasLooked(s.driver)
  {
    StepFrame(s, a);
  }

  lemma {:induction false} LookHistory(s: State, acts: seq<Action>, m: nat)
    requires !HasLooked(s.driver) && CanRun(s, acts) && m <= |acts| && HasLooked(At(s, acts, m).driver)
    requires ExactThroughout(s, acts)
    ensures FoundTask(s, acts, m, Load)
  {
    if m > 0 {
      AtNext(s, acts, m - 1);
      LookStep(At(s, acts, m - 1), acts[m - 1]);
      if acts[m - 1] != Load { LookHistory(s, acts, m - 1); }
    }
  }

  lemma BeginStep(s: State, a: Action)
    requires ActiveExact(s) && Enabled(s, a) && Step(s, a).activeAtWait >= 1
    ensures if a.BeginWait? then Holders(s.execs, Active) != {} else s.activeAtWait >= 1
  {
    StepFrame(s, a);
  }

  lemma {:induction false} BeginHistory(s: State, acts: seq<Action>, m: nat)
    requires s.activeAtWait == 0 && CanRun(s, acts) && m <= |acts| && At(s, acts, m).activeAtWait >= 1
    requires ExactThroughout(s, acts)
    ensures FoundTask(s, acts, m, BeginWait)
  {
    if m > 0 {
      AtNext(s, acts, m - 1);
      BeginStep(At(s, acts, m - 1), acts[m - 1]);
      if acts[m - 1] != BeginWait { BeginHistory(s, acts, m - 1); }
    }
  }

  lemma WaitingHadTask(s: State)
    requires Inv(s) && Enabled(s, TimeOut)
    ensures s.activeAtWait >= 1 && HasLooked(s.driver)
  {
    assert DriverOk(s);
  }

  /** A wait that times out, at step `j`, had a counted, unfinished task when it began, and still had
      one at its last look at active_count. */
  lemma FailedWaitHadTask(s0: State, acts: seq<Action>, j: nat)
    requires IsInit(s0) && CanRun(s0, acts) && j < |acts| && acts[j] == TimeOut
    ensures FoundTask(s0, acts, j, BeginWait) && FoundTask(s0, acts, j, Load)
    ensures forall a :: var i := Last(acts, j, a); (i >= 0 ==> i < j && acts[i] == a) && forall k :: i < k < j ==> k < 0 || acts[k] != a
  {
    InitInv(s0);
    AtNext(s0, acts, j);
    AtKeepsInv(s0, acts, j);
    WaitingHadTask(At(s0, acts, j));
    AlwaysExact(s0, acts);
    BeginHistory(s0, acts, j);
    LookHistory(s0, acts, j);
    forall a ensures var i := Last(acts, j, a); (i >= 0 ==> i < j && acts[i] == a) && forall k :: i < k < j ==> k < 0 || acts[k] != a {
      LastIs(acts, j, a);
    }
  }

  // ---- A wait with nothing to wait for ----

  lemma {:induction false} DrainedIsFinal(s: State, acts: seq<Action>)
    requires s.driver == Drained && CanRun(s, acts)
    ensures Run(s, acts).driver == Drained
    decreases |acts|
  {
    if acts != [] {
      DrainedIsFinal(Step(s, acts[0]), acts[1..]);
    }
  }

  lemma {:induction false} EmptyWaitStays(s: State, round: nat, acts: seq<Action>)
    requires Inv(s) && s.driver == Check(round) && s.activeAtWait == 0 && CanRun(s, acts)
    ensures Run(s, acts).driver == Drained || (Run(s, acts).driver == Check(round) && Run(s, acts).active <= 0)
    decreases |acts|
  {
    if acts == [] {
      assert DriverOk(s);
    } else {
      var s' := Step(s, acts[0]);
      StepKeepsInv(s, acts[0]);
      if s'.driver == Drained {
        DrainedIsFinal(s', acts[1..]);
      } else {
        EmptyWaitStays(s', round, acts[1..]);
      }
    }
  }

  /** A wait that begins with nothing active never times out: after any run it has succeeded, or it
      succeeds at its next look. */
  lemma EmptyWaitSucceeds(s0: State, first: seq<Action>, rest: seq<Action>)
    requires IsInit(s0) && CanRun(s0, first) && Enabled(Run(s0, first), BeginWait)
    requires Holders(Run(s0, first).execs, Active) == {} && CanRun(Step(Run(s0, first), BeginWait), rest)
    ensures var s := Run(Step(Run(s0, first), BeginWait), rest);
            s.driver == Drained || (Enabled(s, Load) && Step(s, Load).driver == Drained)
  {
    var s1 := Run(s0, first);
    Reachable(s0, first);
    StepKeepsInv(s1, BeginWait);
    var s2 := Step(s1, BeginWait);
    RunKeepsInv(s2, rest);
    EmptyWaitStays(s2, s2.driver.round, rest);
  }

  // ---- Two waits ----

  function Timeouts(acts: seq<Action>): nat {
    if acts == [] then 0 else (if acts[0].TimeOut? then 1 else 0) + Timeouts(acts[1..])
  }

  /** How many waits have failed when the driver stands there. */
  predicate WaitsFailed(d: Driver, n: nat) {
    match d
    case Serving => n == 0
    case Draining => n == 0
    case Check(round) => round == n + 1 && n <= 1
    case Loaded(round) => round == n + 1 && n <= 1
    case Waiting(round, _) => round == n + 1 && n <= 1
    case Escalating => n == 1
    case Bailed => n == 2
    case Drained => n <= 1
  }

  lemma WaitIsCounted(s: State, a: Action, n: nat)
    requires Enabled(s, a) && WaitsFailed(s.driver, n)
    ensures WaitsFailed(Step(s, a).driver, if a.TimeOut? then n + 1 else n)
  {
    StepFrame(s, a);
  }

  lemma {:induction false} WaitsAreCounted(s: State, acts: seq<Action>, n: nat)
    requires CanRun(s, acts) && WaitsFailed(s.driver, n)
    ensures WaitsFailed(Run(s, acts).driver, n + Timeouts(acts))
    decreases |acts|
  {
    if acts != [] {
      WaitIsCounted(s, acts[0], n);
      WaitsAreCounted(Step(s, acts[0]), acts[1..], if acts[0].TimeOut? then n + 1 else n);
    }
  }

  /** The service gives up exactly after two waits have failed, and force-kills what is left exactly
      after the first. */
  lemma BailsAfterTwoWaits(s0: State, acts: seq<Action>)
    requires IsInit(s0) && CanRun(s0, acts)
    ensures WaitsFailed(Run(s0, acts).driver, Timeouts(acts))
    ensures Run(s0, acts).driver.Bailed? <==> Timeouts(acts) == 2
    ensures Run(s0, acts).driver.Escalating? ==> Timeouts(acts) == 1
  {
    WaitsAreCounted(s0, acts, 0);
  }

  // ---- Wakeups ----

  function Finishes(acts: seq<Action>): nat {
    if acts == [] then 0 else (if acts[0].Supervise? && acts[0].act.MarkFinished? then 1 else 0) + Finishes(acts[1..])
  }

  function Notifies(acts: seq<Action>): nat {
    if acts == [] then 0 else (if acts[0].Notify? then 1 else 0) + Notifies(acts[1..])
  }

  lemma NotifyStep(s: State, a: Action)
    requires Enabled(s, a)
    ensures Step(s, a).notifying == s.notifying + (if a.Supervise? && a.act.MarkFinished? then 1 else 0) - (if a.Notify? then 1 else 0)
    ensures a.Notify? && s.driver.Waiting? ==> Step(s, a).driver == Waiting(s.driver.round, true)
    ensures a.Notify? && !s.driver.Waiting? ==> Step(s, a).driver == s.driver
  {
    StepFrame(s, a);
  }

  /** Every task that finishes notifies once, and a notification wakes a wait that has begun to
      listen, and only that. */
  lemma {:induction false} EveryFinishNotifies(s: State, acts: seq<Action>)
    requires CanRun(s, acts)
    ensures s.notifying + Finishes(acts) == Run(s, acts).notifying + Notifies(acts)
    decreases |acts|
  {
    if acts != [] {
      NotifyStep(s, acts[0]);
      EveryFinishNotifies(Step(s, acts[0]), acts[1..]);
    }
  }

  // ---- Runs put together ----

  /** `acts` leads from `s` to `end`. */
  predicate Leads(s: State, acts: seq<Action>, end: State) {
    CanRun(s, acts) && Run(s, acts) == end
  }

  lemma {:induction false} Concat(s: State, first: seq<Action>, mid: State, rest: seq<Action>, end: State)
    requires Leads(s, first, mid) && Leads(mid, rest, end)
    ensures Leads(s, first + rest, end)
    decreases |first|
  {
    if first == [] {
      assert first + rest == rest;
    } else {
      Concat(Step(s, first[0]), first[1..], mid, rest, end);
      assert (first + rest)[1..] == first[1..] + rest;
    }
  }

  lemma One(s: State, a: Action)
    requires Enabled(s, a)
    ensures Leads(s, [a], Step(s, a))
  {
    assert [a][1..] == [] && CanRun(Step(s, a), []);
  }

  lemma Then(s: State, acts: seq<Action>, mid: State, a: Action)
    requires Leads(s, acts, mid) && Enabled(mid, a)
    ensures Leads(s, acts + [a], Step(mid, a))
  {
    One(mid, a);
    Concat(s, acts, mid, [a], Step(mid, a));
  }

  // ---- Finishing a task ----

  /** No supervisor opens more readers than it has streams. */
  predicate ReadersCounted(s: State) {
    forall e :: e in s.execs && s.execs[e].Supervised? && s.execs[e].route in s.routes ==>
      SP.CountsReaders(s.routes[s.execs[e].route].config, s.execs[e].sup)
  }

  lemma SuperviseShape(s: State, e: nat, act: S.Action)
    requires Enabled(s, Supervise(e, act))
    ensures var s' := Step(s, Supervise(e, act));
            var x := s.execs[e];
            && s'.execs == s.execs[e := Supervised(x.route, S.Apply(s.routes[x.route].config, x.sup, act))]
            && s'.driver == s.driver && s'.routes == s.routes && s'.routeAvailable.Keys == s.routeAvailable.Keys
            && s'.active == (if act.MarkFinished? then s.active - 1 else s.active)
            && s'.notifying == (if act.MarkFinished? then s.notifying + 1 else s.notifying)
  {
    MovedShape(s, e, S.Apply(s.routes[s.execs[e].route].config, s.execs[e].sup, act), act.MarkFinished?);
  }

  lemma SupervisedIsSafe(s: State, e: nat)
    requires Inv(s) && e in s.execs && s.execs[e].Supervised?
    ensures SI.Safe(s.execs[e].sup) && s.execs[e].route in s.routes && s.execs[e].route in s.routeAvailable
  {
    assert EntryOk(s, s.execs[e]);
  }

  predicate EntryCounts(routes: map<string, Route>, x: Exec) {
    x.Supervised? && x.route in routes ==> SP.CountsReaders(routes[x.route].config, x.sup)
  }

  lemma SuperviseCounts(s: State, e: nat, act: S.Action)
    requires Inv(s) && ReadersCounted(s) && Enabled(s, Supervise(e, act))
    ensures e in Step(s, Supervise(e, act)).execs && EntryCounts(s.routes, Step(s, Supervise(e, act)).execs[e])
  {
    var x := s.execs[e];
    SuperviseShape(s, e, act);
    SupervisedIsSafe(s, e);
    SP.StepCountsReaders(s.routes[x.route].config, x.sup, act);
  }

  lemma ActorCounts(s: State, a: Action, e: nat)
    requires Inv(s) && ReadersCounted(s) && Enabled(s, a) && Actor(a) == Some(e)
    ensures e in Step(s, a).execs && EntryCounts(s.routes, Step(s, a).execs[e])
  {
    if a.Supervise? { SuperviseCounts(s, e, a.act); }
  }

  lemma StepCounts(s: State, a: Action)
    requires Inv(s) && ReadersCounted(s) && Enabled(s, a)
    ensures ReadersCounted(Step(s, a))
  {
    OnlyActorChanges(s, a);
    StepFrame(s, a);
    if Actor(a).Some? { ActorCounts(s, a, Actor(a).value); }
  }

  /** Task `e` has finished between `s` and `s'`, and nothing else has happened. */
  ghost predicate HasFinished(s: State, s': State, e: nat) {
    && Inv(s') && ReadersCounted(s') && s'.driver == s.driver && s'.notifying == s.notifying + 1
    && Holders(s'.execs, Active) == Holders(s.execs, Active) - {e}
  }

  /** Task `e` has moved on between `s` and `s'`, without finishing. */
  ghost predicate HasMoved(s: State, s': State, e: nat) {
    && Inv(s') && ReadersCounted(s') && s'.driver == s.driver && s'.notifying == s.notifying
    && Holders(s'.execs, Active) == Holders(s.execs, Active)
    && e in s'.execs && s'.execs[e].Supervised? && !s'.execs[e].sup.pc.Done?
    && e in s.execs && s.execs[e].Supervised? && s'.execs[e].route == s.execs[e].route && s'.routes == s.routes
  }

  lemma ActiveAfter(execs: map<nat, Exec>, e: nat, sup: S.State)
    requires e in execs && execs[e].Supervised? && !execs[e].sup.pc.Done?
    ensures Holders(execs[e := Supervised(execs[e].route, sup)], Active) ==
            if sup.pc.Done? then Holders(execs, Active) - {e} else Holders(execs, Active)
  {
  }

  lemma FinishesByMark(s: State, e: nat, act: S.Action)
    requires Inv(s) && Enabled(s, Supervise(e, act)) && !s.execs[e].sup.pc.Done?
    ensures S.Apply(s.routes[s.execs[e].route].config, s.execs[e].sup, act).pc.Done? <==> act.MarkFinished?
  {
    SupervisedIsSafe(s, e);
    FinishRule(s.routes[s.execs[e].route].config, s.execs[e].sup, act);
  }

  lemma SuperviseMoves(s: State, e: nat, act: S.Action)
    requires Inv(s) && ReadersCounted(s) && Enabled(s, Supervise(e, act)) && !s.execs[e].sup.pc.Done?
    ensures var s' := Step(s, Supervise(e, act));
            var sup' := S.Apply(s.routes[s.execs[e].route].config, s.execs[e].sup, act);
            if sup'.pc.Done? then HasFinished(s, s', e) else HasMoved(s, s', e) && s'.execs[e].sup == sup'
  {
    var x := s.execs[e];
    var c := s.routes[x.route].config;
    StepKeepsInv(s, Supervise(e, act));
    StepCounts(s, Supervise(e, act));
    SuperviseShape(s, e, act);
    FinishesByMark(s, e, act);
    ActiveAfter(s.execs, e, S.Apply(c, x.sup, act));
  }

  lemma {:induction false} FinishRun(s: State, e: nat, more: seq<S.Action>) returns (acts: seq<Action>, s': State)
    requires Inv(s) && ReadersCounted(s) && e in s.execs && s.execs[e].Supervised? && !s.execs[e].sup.pc.Done?
    requires s.execs[e].route in s.routes && s.execs[e].route in s.routeAvailable
    requires var c := s.routes[s.execs[e].route].config;
             S.CanRun(c, s.execs[e].sup, more) && S.Run(c, s.execs[e].sup, more).pc.Done?
    ensures Leads(s, acts, s') && HasFinished(s, s', e)
    decreases |more|
  {
    var c, sup := s.routes[s.execs[e].route].config, s.execs[e].sup;
    assert more != [];
    var a := Supervise(e, more[0]);
    SuperviseMoves(s, e, more[0]);
    One(s, a);
    s' := Step(s, a);
    acts := [a];
    if !S.Apply(c, sup, more[0]).pc.Done? {
      SupervisedIsSafe(s', e);
      var rest, end := FinishRun(s', e, more[1..]);
      Concat(s, [a], s', rest, end);
      acts, s' := [a] + rest, end;
    }
  }

  lemma FinishTask(s: State, e: nat) returns (acts: seq<Action>, s': State)
    requires Inv(s) && ReadersCounted(s) && e in s.execs && s.execs[e].Supervised? && !s.execs[e].sup.pc.Done?
    ensures Leads(s, acts, s') && HasFinished(s, s', e)
  {
    SupervisedIsSafe(s, e);
    var more := SP.Finishes(s.routes[s.execs[e].route].config, s.execs[e].sup);
    acts, s' := FinishRun(s, e, more);
  }

  /** All tasks have finished between `s` and `s'`; each has notified. */
  ghost predicate AllFinished(s: State, s': State) {
    && Inv(s') && ReadersCounted(s') && s'.driver == s.driver
    && Holders(s'.execs, Active) == {} && s'.notifying == s.notifying + |Holders(s.execs, Active)|
  }

  lemma {:induction false} FinishAll(s: State) returns (acts: seq<Action>, s': State)
    requires Inv(s) && ReadersCounted(s) && !s.driver.Serving?
    ensures Leads(s, acts, s') && AllFinished(s, s')
    decreases |Holders(s.execs, Active)|
  {
    acts, s' := [], s;
    if Holders(s.execs, Active) != {} {
      var e :| e in Holders(s.execs, Active);
      assert AtRest(s.execs[e]);
      var first, mid := FinishTask(s, e);
      assert |Holders(mid.execs, Active)| == |Holders(s.execs, Active)| - 1;
      var rest, end := FinishAll(mid);
      Concat(s, first, mid, rest, end);
      acts, s' := first + rest, end;
    }
  }

  // ---- The drain can succeed, or has lost its wakeup ----

  /** The second wait has failed, or will: it is about to listen, or listens, for a notification that
      is not to come. */
  ghost predicate Doomed(s: State) {
    || s.driver.Bailed?
    || ((s.driver == Loaded(2) || s.driver == Waiting(2, false)) && Holders(s.execs, Active) == {} && s.notifying == 0)
  }

  lemma LoadSucceeds(s: State) returns (acts: seq<Action>, s': State)
    requires Inv(s) && s.driver.Check? && Holders(s.execs, Active) == {}
    ensures Leads(s, acts, s') && s'.driver == Drained
  {
    One(s, Load);
    acts, s' := [Load], Step(s, Load);
  }

  lemma WaitSucceeds(s: State) returns (acts: seq<Action>, s': State)
    requires Inv(s) && s.driver.Waiting? && Holders(s.execs, Active) == {} && (s.driver.woken || s.notifying > 0)
    ensures Leads(s, acts, s') && s'.driver == Drained
  {
    var s1 := s;
    acts := [];
    assert Leads(s, [], s);
    if !s.driver.woken {
      Then(s, [], s, Notify);
      StepKeepsInv(s, Notify);
      acts, s1 := [] + [Notify], Step(s, Notify);
    }
    Then(s, acts, s1, Wake);
    StepKeepsInv(s1, Wake);
    var rest, end := LoadSucceeds(Step(s1, Wake));
    Concat(s, acts + [Wake], Step(s1, Wake), rest, end);
    acts, s' := acts + [Wake] + rest, end;
  }

  lemma EscalationSucceeds(s: State) returns (acts: seq<Action>, s': State)
    requires Inv(s) && (s.driver.Draining? || s.driver.Escalating?) && Holders(s.execs, Active) == {}
    ensures Leads(s, acts, s') && s'.driver == Drained
  {
    One(s, BeginWait);
    StepKeepsInv(s, BeginWait);
    var rest, end := LoadSucceeds(Step(s, BeginWait));
    Concat(s, [BeginWait], Step(s, BeginWait), rest, end);
    acts, s' := [BeginWait] + rest, end;
  }

  lemma TimeoutSucceeds(s: State) returns (acts: seq<Action>, s': State)
    requires Inv(s) && s.driver == Waiting(1, false) && Holders(s.execs, Active) == {}
    ensures Leads(s, acts, s') && s'.driver == Drained
  {
    One(s, TimeOut);
    StepKeepsInv(s, TimeOut);
    var rest, end := EscalationSucceeds(Step(s, TimeOut));
    Concat(s, [TimeOut], Step(s, TimeOut), rest, end);
    acts, s' := [TimeOut] + rest, end;
  }

  predicate RoundOk(d: Driver) {
    (d.Check? || d.Loaded? || d.Waiting? ==> d.round == 1 || d.round == 2)
  }

  lemma ListeningSucceeds(s: State) returns (acts: seq<Action>, s': State)
    requires Inv(s) && s.driver.Waiting? && !Doomed(s) && Holders(s.execs, Active) == {} && RoundOk(s.driver)
    ensures Leads(s, acts, s') && s'.driver == Drained
  {
    if s.driver.woken || s.notifying > 0 {
      acts, s' := WaitSucceeds(s);
    } else {
      acts, s' := TimeoutSucceeds(s);
    }
  }

  /** With nothing active, from wherever the driver stands. */
  lemma IdleSucceeds(s: State) returns (acts: seq<Action>, s': State)
    requires Inv(s) && !s.driver.Serving? && !Doomed(s) && Holders(s.execs, Active) == {} && RoundOk(s.driver)
    ensures Leads(s, acts, s') && s'.driver == Drained
  {
    match s.driver
    case Drained =>
      acts, s' := [], s;
    case Check(_) =>
      acts, s' := LoadSucceeds(s);
    case Loaded(_) =>
      One(s, Arm);
      StepKeepsInv(s, Arm);
      var rest, end := ListeningSucceeds(Step(s, Arm));
      Concat(s, [Arm], Step(s, Arm), rest, end);
      acts, s' := [Arm] + rest, end;
    case Waiting(_, _) =>
      acts, s' := ListeningSucceeds(s);
    case _ =>
      acts, s' := EscalationSucceeds(s);
  }

  lemma ActiveStep(s: State, a: Action)
    requires Inv(s) && !s.driver.Serving? && Enabled(s, a)
    ensures Step(s, a).active == s.active - (if a.Supervise? && a.act.MarkFinished? then 1 else 0)
    ensures !Step(s, a).driver.Serving?
  {
    assert forall e :: e in s.execs ==> AtRest(s.execs[e]);
    StepFrame(s, a);
  }

  lemma NoneActive(s: State)
    requires ActiveExact(s) && s.active <= 0
    ensures s.active == 0 && Holders(s.execs, Active) == {}
  {
  }

  lemma DoomedDriver(s: State, a: Action)
    requires (s.driver == Loaded(2) || s.driver == Waiting(2, false)) && s.notifying == 0 && Enabled(s, a)
    ensures Step(s, a).driver == Loaded(2) || Step(s, a).driver == Waiting(2, false) || Step(s, a).driver == Bailed
    ensures !(a.Supervise? && a.act.MarkFinished?) ==> Step(s, a).notifying == 0
  {
    StepFrame(s, a);
  }

  lemma DoomedStays(s: State, a: Action)
    requires Inv(s) && Doomed(s) && Enabled(s, a)
    ensures Doomed(Step(s, a))
  {
    StepKeepsInv(s, a);
    if s.driver.Bailed? {
      StepFrame(s, a);
    } else {
      ActiveStep(s, a);
      DoomedDriver(s, a);
      NoneActive(Step(s, a));
    }
  }

  lemma {:induction false} DoomedForEver(s: State, acts: seq<Action>)
    requires Inv(s) && Doomed(s) && CanRun(s, acts)
    ensures !Run(s, acts).driver.Drained?
    decreases |acts|
  {
    if acts != [] {
      StepKeepsInv(s, acts[0]);
      DoomedStays(s, acts[0]);
      DoomedForEver(Step(s, acts[0]), acts[1..]);
    }
  }

  lemma {:induction false} RunCounts(s: State, acts: seq<Action>)
    requires Inv(s) && ReadersCounted(s) && CanRun(s, acts)
    ensures ReadersCounted(Run(s, acts))
    decreases |acts|
  {
    if acts != [] {
      StepKeepsInv(s, acts[0]);
      StepCounts(s, acts[0]);
      RunCounts(Step(s, acts[0]), acts[1..]);
    }
  }

  lemma SucceedsUnlessDoomed(s: State) returns (acts: seq<Action>, s': State)
    requires Inv(s) && ReadersCounted(s) && !s.driver.Serving? && RoundOk(s.driver) && !Doomed(s)
    ensures Leads(s, acts, s') && s'.driver == Drained
  {
    var first, mid := FinishAll(s);
    var rest, end := IdleSucceeds(mid);
    Concat(s, first, mid, rest, end);
    acts, s' := first + rest, end;
  }

  ghost predicate CanDrain(s: State) {
    exists acts, end :: Leads(s, acts, end) && end.driver == Drained
  }

  /** At any moment after the servers have stopped, whatever tasks are still running, the drain can
      succeed, if and only if the second wait has not failed and has not lost its last wakeup: a
      notification that came between its look at active_count and the moment it began to listen. */
  lemma DrainSucceedsIff(s0: State, acts: seq<Action>)
    requires IsInit(s0) && CanRun(s0, acts) && !Run(s0, acts).driver.Serving?
    ensures CanDrain(Run(s0, acts)) <==> !Doomed(Run(s0, acts))
  {
    var s := Run(s0, acts);
    InitInv(s0);
    Reachable(s0, acts);
    RunCounts(s0, acts);
    WaitsAreCounted(s0, acts, 0);
    if Doomed(s) {
      forall more, end | Leads(s, more, end) ensures end.driver != Drained {
        DoomedForEver(s, more);
      }
    } else {
      var more, end := SucceedsUnlessDoomed(s);
      assert Leads(s, more, end) && end.driver == Drained;
    }
  }

  // ---- Two runs ----

  /** A service with a free permit for a route, and a request for it. */
  predicate CanAdmit(s0: State, e: nat, route: string, snap: TaskSnapshot) {
    && IsInit(s0) && s0.limit > 0 && route in s0.routes && s0.routes[route].limit > 0
    && e !in s0.execs && IsFresh(snap) && snap.taskId == e
  }

  /** One task has been admitted and is supervised; nothing else is active. */
  ghost predicate OneTask(s: State, e: nat) {
    && Inv(s) && ReadersCounted(s) && Holders(s.execs, Active) == {e} && s.notifying == 0
    && forall f :: f in s.execs ==> AtRest(s.execs[f])
  }

  lemma Admitted(s0: State, e: nat, route: string, snap: TaskSnapshot) returns (acts: seq<Action>, s: State)
    requires CanAdmit(s0, e, route, snap)
    ensures Leads(s0, acts, s) && s.execs == s0.execs[e := Counted(route, snap, None)]
    ensures s.driver == Serving && s.notifying == 0 && s.routes == s0.routes
  {
    var s1 := Admit(s0, e, route);
    One(s0, Arrive(e, route));
    var s2 := AdmitRoute(s1, e, route);
    Then(s0, [Arrive(e, route)], s1, TryRoute(e));
    var s3 := Listed(s2, e, Inserted(route, snap, None));
    Then(s0, [Arrive(e, route)] + [TryRoute(e)], s2, Insert(e, snap));
    s := NowCounted(s3, e, Counted(route, snap, None));
    Then(s0, [Arrive(e, route)] + [TryRoute(e)] + [Insert(e, snap)], s3, Count(e));
    acts := [Arrive(e, route)] + [TryRoute(e)] + [Insert(e, snap)] + [Count(e)];
  }

  lemma OnlyOne(before: map<nat, Exec>, after: map<nat, Exec>, e: nat, x: Exec)
    requires after == before[e := x] && x.Supervised? && !x.sup.pc.Done?
    requires forall f :: f in before ==> before[f].Recovered?
    ensures Holders(after, Active) == {e} && forall f :: f in after ==> AtRest(after[f])
  {
  }

  lemma StartsOneTask(s0: State, e: nat, route: string, snap: TaskSnapshot) returns (acts: seq<Action>, s: State)
    requires CanAdmit(s0, e, route, snap)
    ensures Leads(s0, acts, s) && OneTask(s, e) && s.driver == Serving
  {
    var first, mid := Admitted(s0, e, route, snap);
    Then(s0, first, mid, Spawn(e));
    acts, s := first + [Spawn(e)], Step(mid, Spawn(e));
    Reachable(s0, acts);
    InitInv(s0);
    RunCounts(s0, acts);
    OnlyOne(s0.execs, s.execs, e, Supervised(route, S.Init(snap, None)));
  }

  /** Where the driver goes while a task is active. */
  function WithTask(d: Driver, a: Action): Driver {
    if a.StopServing? then Draining
    else if a.BeginWait? then Check(if d.Draining? then 1 else 2)
    else if a.Load? && d.Check? then Loaded(d.round)
    else if a.Arm? && d.Loaded? then Waiting(d.round, false)
    else if a.TimeOut? && d.Waiting? then (if d.round == 1 then Escalating else Bailed)
    else d
  }

  lemma DriverMoves(s: State, a: Action, e: nat)
    requires OneTask(s, e) && Enabled(s, a) && (a.StopServing? || a.BeginWait? || a.Load? || a.Arm? || a.TimeOut?)
    ensures OneTask(Step(s, a), e) && Step(s, a).driver == WithTask(s.driver, a)
  {
    StepKeepsInv(s, a);
    StepCounts(s, a);
  }

  lemma Moves(s0: State, acts: seq<Action>, s: State, a: Action, e: nat) returns (acts': seq<Action>, s': State)
    requires Leads(s0, acts, s) && OneTask(s, e) && Enabled(s, a)
    requires a.StopServing? || a.BeginWait? || a.Load? || a.Arm? || a.TimeOut?
    ensures Leads(s0, acts', s') && OneTask(s', e) && s'.driver == WithTask(s.driver, a)
  {
    Then(s0, acts, s, a);
    DriverMoves(s, a, e);
    acts', s' := acts + [a], Step(s, a);
  }

  /** The first wait has looked and found the task. */
  lemma FirstLook(s0: State, e: nat, route: string, snap: TaskSnapshot) returns (acts: seq<Action>, s: State)
    requires CanAdmit(s0, e, route, snap)
    ensures Leads(s0, acts, s) && OneTask(s, e) && s.driver == Loaded(1)
  {
    acts, s := StartsOneTask(s0, e, route, snap);
    acts, s := Moves(s0, acts, s, StopServing, e);
    acts, s := Moves(s0, acts, s, BeginWait, e);
    acts, s := Moves(s0, acts, s, Load, e);
  }

  lemma {:induction false} LastAction(acts: seq<Action>, a: Action)
    requires !a.TimeOut?
    ensures Timeouts(acts + [a]) == Timeouts(acts)
  {
    if acts == [] {
      assert [] + [a] == [a] && [a][1..] == [];
    } else {
      LastAction(acts[1..], a);
      assert (acts + [a])[1..] == acts[1..] + [a];
    }
  }

  /** A task that is active when the first wait begins finishes during that wait, and the service
      drains. */
  lemma OneTaskDrains(s0: State, e: nat, route: string, snap: TaskSnapshot) returns (acts: seq<Action>, s: State)
    requires CanAdmit(s0, e, route, snap)
    ensures Leads(s0, acts, s) && s.driver == Drained && Timeouts(acts) == 0
  {
    acts, s := FirstLook(s0, e, route, snap);
    acts, s := Moves(s0, acts, s, Arm, e);
    var more, mid := FinishAll(s);
    Concat(s0, acts, s, more, mid);
    Then(s0, acts + more, mid, Notify);
    NotifyStep(mid, Notify);
    OnlyActorChanges(mid, Notify);
    var s1 := Step(mid, Notify);
    Then(s0, acts + more + [Notify], s1, Wake);
    OnlyActorChanges(s1, Wake);
    acts, s := acts + more + [Notify] + [Wake], Step(s1, Wake);
    BailsAfterTwoWaits(s0, acts);
    Reachable(s0, acts);
    Then(s0, acts, s, Load);
    LastAction(acts, Load);
    acts, s := acts + [Load], Step(s, Load);
  }

  /** A wakeup lost in the second wait: the task finishes and notifies after the second look at
      active_count and before the wait listens. The service gives up with nothing left to wait for. */
  lemma LostWakeupBails(s0: State, e: nat, route: string, snap: TaskSnapshot) returns (acts: seq<Action>, s: State)
    requires CanAdmit(s0, e, route, snap)
    ensures Leads(s0, acts, s) && s.driver == Bailed && Holders(s.execs, Active) == {}
  {
    acts, s := FirstLook(s0, e, route, snap);
    acts, s := Moves(s0, acts, s, Arm, e);
    acts, s := Moves(s0, acts, s, TimeOut, e);
    acts, s := Moves(s0, acts, s, BeginWait, e);
    acts, s := Moves(s0, acts, s, Load, e);
    var more, mid := FinishAll(s);
    Concat(s0, acts, s, more, mid);
    acts := acts + more;
    Then(s0, acts, mid, Notify);
    NotifyStep(mid, Notify);
    OnlyActorChanges(mid, Notify);
    var s1 := Step(mid, Notify);
    Then(s0, acts + [Notify], s1, Arm);
    OnlyActorChanges(s1, Arm);
    var s2 := Step(s1, Arm);
    Then(s0, acts + [Notify] + [Arm], s2, TimeOut);
    OnlyActorChanges(s2, TimeOut);
    acts, s := acts + [Notify] + [Arm] + [TimeOut], Step(s2, TimeOut);
  }
}
