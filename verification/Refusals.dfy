/** What a refused request leaves behind (src/app.rs, `execute`). While it is on its way it may
    hold permits, so others may be refused on its account; if none is, the whole run is one that
    could have happened without it. */
module Refusals {
  import opened TaskModel
  import opened Service
  import S = Supervisor

  // ---- A run without one request ----

  function Entry(execs: map<nat, Exec>, e: nat): Option<Exec> {
    if e in execs then Some(execs[e]) else None
  }

  /** What an entry holds of a permit. */
  function Held(x: Option<Exec>, q: Query): nat {
    if x.Some? && Holds(q, x.value) then 1 else 0
  }

  function Share(s: State, e: nat, q: Query): nat {
    Held(Entry(s.execs, e), q)
  }

  /** The free permits of the routes if entry `x` held none. */
  function GivenBack(free: map<string, nat>, x: Option<Exec>): map<string, nat> {
    map r | r in free :: free[r] + Held(x, OfRoute(r))
  }

  /** The state without entry `e` and with its permits given back. */
  function Erase(s: State, e: nat): State {
    s.(execs := s.execs - {e},
       available := s.available + Share(s, e, Global),
       routeAvailable := GivenBack(s.routeAvailable, Entry(s.execs, e)))
  }

  /** The actions of a run other than those of request `e`. */
  function Others(acts: seq<Action>, e: nat): seq<Action> {
    if acts == [] then []
    else if Actor(acts[0]) == Some(e) then Others(acts[1..], e)
    else [acts[0]] + Others(acts[1..], e)
  }

  /** Another request is refused at this step only because `e` holds the permit it needs. */
  predicate Disturbs(s: State, e: nat, a: Action)
    requires Enabled(s, a)
  {
    match a
    case Arrive(f, _) => f != e && s.available == 0 && Share(s, e, Global) == 1
    case TryRoute(f) => f != e && s.routeAvailable[s.execs[f].route] == 0 && Share(s, e, OfRoute(s.execs[f].route)) == 1
    case _ => false
  }

  /** No request is ever refused on account of `e`. */
  predicate Undisturbed(s: State, acts: seq<Action>, e: nat)
    requires CanRun(s, acts)
    decreases |acts|
  {
    acts == [] || (!Disturbs(s, e, acts[0]) && Undisturbed(Step(s, acts[0]), acts[1..], e))
  }

  /** The run without `e` is possible and ends as the run did, but for the entry of `e`. */
  predicate LeavesNoTrace(s: State, acts: seq<Action>, e: nat)
    requires CanRun(s, acts)
  {
    CanRun(Erase(s, e), Others(acts, e)) && Run(Erase(s, e), Others(acts, e)) == Erase(Run(s, acts), e)
  }

  // ---- Steps of the request itself ----

  /** Request `e` has not become a task. */
  predicate Early(s: State, e: nat) {
    && (e in s.execs ==> s.execs[e].HasGlobal? || s.execs[e].HasBoth? || s.execs[e].Rejected?)
    && e !in s.listed && e !in s.doomed
  }

  /** Two states that agree but for `e` and the permits. */
  predicate SameBut(s: State, s': State, e: nat) {
    && s'.execs - {e} == s.execs - {e}
    && s' == s.(execs := s'.execs, available := s'.available, routeAvailable := s'.routeAvailable)
  }

  lemma SameErasure(s: State, s': State, e: nat)
    requires SameBut(s, s', e) && s'.routeAvailable.Keys == s.routeAvailable.Keys
    requires s'.available + Share(s', e, Global) == s.available + Share(s, e, Global)
    requires forall r :: r in s.routeAvailable ==>
               s'.routeAvailable[r] + Share(s', e, OfRoute(r)) == s.routeAvailable[r] + Share(s, e, OfRoute(r))
    ensures Erase(s', e) == Erase(s, e)
  {
  }

  lemma OwnStepIsErased(s: State, e: nat, a: Action)
    requires Early(s, e) && Enabled(s, a) && Actor(a) == Some(e) && (a.Arrive? || a.TryRoute? || a.CreateFails?)
    ensures Early(Step(s, a), e) && Erase(Step(s, a), e) == Erase(s, e)
  {
    SameErasure(s, Step(s, a), e);
  }

  // ---- Steps of others ----

  lemma UpdateElsewhere(execs: map<nat, Exec>, e: nat, f: nat, x: Exec)
    requires f != e
    ensures (execs - {e})[f := x] == execs[f := x] - {e} && Entry(execs[f := x], e) == Entry(execs, e)
    ensures f in execs ==> f in execs - {e} && (execs - {e})[f] == execs[f]
  {
  }

  lemma PutCommutes(s: State, e: nat, f: nat, x: Exec)
    requires f != e
    ensures Erase(Put(s, f, x), e) == Put(Erase(s, e), f, x)
  {
    UpdateElsewhere(s.execs, e, f, x);
  }

  /** Setting the free permits of a route, seen with and without `x`. */
  lemma GivenBackAt(free: map<string, nat>, x: Option<Exec>, route: string, n: nat)
    requires route in free
    ensures GivenBack(free[route := n], x) == GivenBack(free, x)[route := n + Held(x, OfRoute(route))]
  {
  }

  lemma AdmitCommutes(s: State, e: nat, f: nat, route: string)
    requires f != e && !(s.available == 0 && Share(s, e, Global) == 1)
    ensures Erase(Admit(s, f, route), e) == Admit(Erase(s, e), f, route)
  {
    UpdateElsewhere(s.execs, e, f, HasGlobal(route));
    UpdateElsewhere(s.execs, e, f, Rejected);
  }

  lemma AdmitRouteCommutes(s: State, e: nat, f: nat, route: string)
    requires f != e && route in s.routeAvailable && !(s.routeAvailable[route] == 0 && Share(s, e, OfRoute(route)) == 1)
    ensures Erase(AdmitRoute(s, f, route), e) == AdmitRoute(Erase(s, e), f, route)
  {
    if s.routeAvailable[route] > 0 {
      UpdateElsewhere(s.execs, e, f, HasBoth(route));
      GivenBackAt(s.routeAvailable, Entry(s.execs, e), route, s.routeAvailable[route] - 1);
    } else {
      UpdateElsewhere(s.execs, e, f, Rejected);
    }
  }

  lemma GiveBackCommutes(s: State, e: nat, route: string)
    requires route in s.routeAvailable
    ensures Erase(GiveBackRoute(s, route), e) == GiveBackRoute(Erase(s, e), route)
  {
    GivenBackAt(s.routeAvailable, Entry(s.execs, e), route, s.routeAvailable[route] + 1);
  }

  /** Both permits come back. */
  lemma BothBackCommutes(s: State, e: nat, route: string)
    requires route in s.routeAvailable
    ensures Erase(GiveBackRoute(s, route).(available := s.available + 1), e) ==
            GiveBackRoute(Erase(s, e), route).(available := Erase(s, e).available + 1)
  {
    GiveBackCommutes(s, e, route);
  }

  lemma RefundedCommutes(s: State, e: nat, f: nat, route: string)
    requires f != e && route in s.routeAvailable
    ensures Erase(Refunded(s, f, route), e) == Refunded(Erase(s, e), f, route)
  {
    PutCommutes(s, e, f, Rejected);
    BothBackCommutes(Put(s, f, Rejected), e, route);
  }

  lemma CountCommutes(s: State, e: nat, active: int, notifying: nat)
    ensures Erase(s.(active := active, notifying := notifying), e) == Erase(s, e).(active := active, notifying := notifying)
  {
  }

  lemma MovedCommutes(s: State, e: nat, f: nat, sup: S.State, finished: bool)
    requires f != e && f in s.execs && s.execs[f].Supervised? && s.execs[f].route in s.routeAvailable
    ensures Erase(Moved(s, f, sup, finished), e) == Moved(Erase(s, e), f, sup, finished)
  {
    var x := s.execs[f];
    var moved := Put(s, f, Supervised(x.route, sup));
    PutCommutes(s, e, f, Supervised(x.route, sup));
    BothBackCommutes(moved, e, x.route);
    var released :=
      if x.sup.permits && !sup.permits then GiveBackRoute(moved, x.route).(available := s.available + 1) else moved;
    CountCommutes(released, e, s.active - 1, s.notifying + 1);
  }

  /** The steps by which another request becomes a task. */
  lemma CreationCommutes(s: State, e: nat, a: Action)
    requires Early(s, e) && Enabled(s, a) && (a.Insert? || a.EarlyStop? || a.Count? || a.Spawn?) && a.e != e
    ensures Enabled(Erase(s, e), a) && Erase(Step(s, a), e) == Step(Erase(s, e), a)
  {
    UpdateElsewhere(s.execs, e, a.e, Step(s, a).execs[a.e]);
  }

  lemma AdmissionCommutes(s: State, e: nat, a: Action)
    requires Early(s, e) && Enabled(s, a) && (a.Arrive? || a.TryRoute? || a.CreateFails?) && a.e != e && !Disturbs(s, e, a)
    ensures Enabled(Erase(s, e), a) && Erase(Step(s, a), e) == Step(Erase(s, e), a)
  {
    match a
    case Arrive(f, route) => AdmitCommutes(s, e, f, route);
    case TryRoute(f) => AdmitRouteCommutes(s, e, f, s.execs[f].route);
    case CreateFails(f) => RefundedCommutes(s, e, f, s.execs[f].route);
  }

  lemma SuperviseCommutes(s: State, e: nat, f: nat, act: S.Action)
    requires Enabled(s, Supervise(f, act)) && f != e
    ensures Enabled(Erase(s, e), Supervise(f, act))
    ensures Erase(SuperviseStep(s, f, act), e) == SuperviseStep(Erase(s, e), f, act)
  {
    var x := s.execs[f];
    MovedCommutes(s, e, f, S.Apply(s.routes[x.route].config, x.sup, act), act.MarkFinished?);
  }

  /** The steps of cleanup and drain. */
  lemma HouseworkCommutes(s: State, e: nat, a: Action)
    requires Early(s, e) && Enabled(s, a) && Actor(a).None?
    ensures Enabled(Erase(s, e), a) && Erase(Step(s, a), e) == Step(Erase(s, e), a)
  {
  }

  lemma OthersStayEarly(s: State, e: nat, a: Action)
    requires Early(s, e) && Enabled(s, a) && Actor(a) != Some(e)
    ensures Early(Step(s, a), e)
  {
    OnlyActorChanges(s, a);
  }

  lemma OtherStepCommutes(s: State, e: nat, a: Action)
    requires Early(s, e) && Enabled(s, a) && Actor(a) != Some(e) && !Disturbs(s, e, a)
    ensures Enabled(Erase(s, e), a) && Erase(Step(s, a), e) == Step(Erase(s, e), a)
  {
    match a
    case Supervise(f, act) => SuperviseCommutes(s, e, f, act);
    case Arrive(_, _) => AdmissionCommutes(s, e, a);
    case TryRoute(_) => AdmissionCommutes(s, e, a);
    case CreateFails(_) => AdmissionCommutes(s, e, a);
    case Insert(_, _) => CreationCommutes(s, e, a);
    case EarlyStop(_, _) => CreationCommutes(s, e, a);
    case Count(_) => CreationCommutes(s, e, a);
    case Spawn(_) => CreationCommutes(s, e, a);
    case _ => HouseworkCommutes(s, e, a);
  }

  // ---- Entries that stay ----

  predicate NoActionOf(acts: seq<Action>, f: nat) {
    forall i :: 0 <= i < |acts| ==> Actor(acts[i]) != Some(f)
  }

  lemma {:induction false} OthersHaveNone(acts: seq<Action>, e: nat, f: nat)
    requires NoActionOf(acts, f)
    ensures NoActionOf(Others(acts, e), f)
  {
    if acts != [] {
      assert forall i :: 0 <= i < |acts[1..]| ==> acts[1..][i] == acts[i + 1];
      OthersHaveNone(acts[1..], e, f);
    }
  }

  lemma {:induction false} EntryStays(s: State, acts: seq<Action>, f: nat)
    requires CanRun(s, acts) && f in s.execs && NoActionOf(acts, f)
    ensures f in Run(s, acts).execs && Run(s, acts).execs[f] == s.execs[f]
    decreases |acts|
  {
    if acts != [] {
      OnlyActorChanges(s, acts[0]);
      assert Actor(acts[0]) != Some(f);
      EntryStays(Step(s, acts[0]), acts[1..], f);
    }
  }

  /** A refused request never acts again. */
  lemma {:induction false} RefusedIsIdle(s: State, acts: seq<Action>, f: nat)
    requires CanRun(s, acts) && f in s.execs && s.execs[f].Rejected?
    ensures NoActionOf(acts, f)
    decreases |acts|
  {
    if acts != [] {
      OnlyActorChanges(s, acts[0]);
      RefusedIsIdle(Step(s, acts[0]), acts[1..], f);
      assert forall i :: 1 <= i < |acts| ==> acts[i] == acts[1..][i - 1];
    }
  }

  predicate IsTask(s: State, e: nat) {
    e in s.execs && (s.execs[e].Inserted? || s.execs[e].Counted? || s.execs[e].Supervised?)
  }

  lemma StepKeepsTask(s: State, a: Action, e: nat)
    requires IsTask(s, e) && Enabled(s, a)
    ensures IsTask(Step(s, a), e)
  {
    OnlyActorChanges(s, a);
  }

  /** A task is never refused afterwards. */
  lemma {:induction false} TaskIsNotRefused(s: State, acts: seq<Action>, e: nat)
    requires CanRun(s, acts) && IsTask(s, e)
    ensures IsTask(Run(s, acts), e)
    decreases |acts|
  {
    if acts != [] {
      StepKeepsTask(s, acts[0], e);
      TaskIsNotRefused(Step(s, acts[0]), acts[1..], e);
    }
  }

  // ---- The result ----

  /** With and without `e`, the disturbed request fares differently. */
  lemma DisturbedEntry(s: State, e: nat, a: Action)
    requires Enabled(s, a) && Disturbs(s, e, a)
    ensures a.e in Step(s, a).execs && Step(s, a).execs[a.e].Rejected?
    ensures Enabled(Erase(s, e), a) && a.e in Step(Erase(s, e), a).execs && !Step(Erase(s, e), a).execs[a.e].Rejected?
  {
  }

  lemma DisturbanceShows(s: State, acts: seq<Action>, e: nat)
    requires acts != [] && CanRun(s, acts) && Disturbs(s, e, acts[0])
    ensures !LeavesNoTrace(s, acts, e)
  {
    var a, rest := acts[0], acts[1..];
    var f := a.e;
    DisturbedEntry(s, e, a);
    RefusedIsIdle(Step(s, a), rest, f);
    EntryStays(Step(s, a), rest, f);
    OthersHaveNone(rest, e, f);
    assert Others(acts, e)[1..] == Others(rest, e);
    if CanRun(Erase(s, e), Others(acts, e)) {
      EntryStays(Step(Erase(s, e), a), Others(rest, e), f);
      assert Run(Erase(s, e), Others(acts, e)).execs[f] != Run(s, acts).execs[f];
    }
  }

  lemma OtherStepKeepsTrace(s: State, acts: seq<Action>, e: nat)
    requires acts != [] && CanRun(s, acts) && Early(s, e) && Actor(acts[0]) != Some(e) && !Disturbs(s, e, acts[0])
    ensures LeavesNoTrace(s, acts, e) <==> LeavesNoTrace(Step(s, acts[0]), acts[1..], e)
  {
    OtherStepCommutes(s, e, acts[0]);
    assert Others(acts, e)[1..] == Others(acts[1..], e);
  }

  lemma OwnStepKeepsTrace(s: State, acts: seq<Action>, e: nat)
    requires acts != [] && CanRun(s, acts) && Early(s, e) && Actor(acts[0]) == Some(e)
    requires acts[0].Arrive? || acts[0].TryRoute? || acts[0].CreateFails?
    ensures Early(Step(s, acts[0]), e)
    ensures LeavesNoTrace(s, acts, e) <==> LeavesNoTrace(Step(s, acts[0]), acts[1..], e)
  {
    OwnStepIsErased(s, e, acts[0]);
  }

  /** A request that is going to be refused takes no other steps. */
  lemma OwnStepIsAdmission(s: State, acts: seq<Action>, e: nat)
    requires acts != [] && CanRun(s, acts) && Early(s, e) && Actor(acts[0]) == Some(e) && !IsTask(Run(s, acts), e)
    ensures acts[0].Arrive? || acts[0].TryRoute? || acts[0].CreateFails?
  {
    if acts[0].Insert? {
      TaskIsNotRefused(Step(s, acts[0]), acts[1..], e);
    }
  }

  lemma {:induction false} TraceIff(s: State, acts: seq<Action>, e: nat)
    requires CanRun(s, acts) && Early(s, e) && !IsTask(Run(s, acts), e)
    ensures LeavesNoTrace(s, acts, e) <==> Undisturbed(s, acts, e)
    decreases |acts|
  {
    if acts != [] {
      var a := acts[0];
      if Disturbs(s, e, a) {
        DisturbanceShows(s, acts, e);
      } else {
        if Actor(a) == Some(e) {
          OwnStepIsAdmission(s, acts, e);
          OwnStepKeepsTrace(s, acts, e);
        } else {
          OtherStepKeepsTrace(s, acts, e);
          OthersStayEarly(s, e, a);
        }
        TraceIff(Step(s, a), acts[1..], e);
      }
    }
  }

  lemma AbsentErasesNothing(s: State, e: nat)
    requires e !in s.execs
    ensures Erase(s, e) == s
  {
    assert s.execs - {e} == s.execs;
    assert GivenBack(s.routeAvailable, None) == s.routeAvailable;
  }

  lemma RefusedErasesEntry(s: State, e: nat)
    requires e in s.execs && s.execs[e].Rejected?
    ensures Erase(s, e) == s.(execs := s.execs - {e})
  {
    assert GivenBack(s.routeAvailable, Some(Rejected)) == s.routeAvailable;
  }

  /** Over every run: if request `e` is refused, at either semaphore or because its record cannot
      be created, then the same run without it is possible, and ends in the same permits, tasks
      and counters, if and only if no other request was refused while it lacked only a permit
      that `e` held. */
  lemma RefusedLeavesNoTraceIff(s0: State, acts: seq<Action>, e: nat)
    requires IsInit(s0) && CanRun(s0, acts) && e !in s0.execs
    requires e in Run(s0, acts).execs && Run(s0, acts).execs[e].Rejected?
    ensures var s := Run(s0, acts);
            (CanRun(s0, Others(acts, e)) && Run(s0, Others(acts, e)) == s.(execs := s.execs - {e}))
            <==> Undisturbed(s0, acts, e)
  {
    TraceIff(s0, acts, e);
    AbsentErasesNothing(s0, e);
    RefusedErasesEntry(Run(s0, acts), e);
  }

  // ---- The other side occurs ----

  lemma Prepend(s: State, a: Action, acts: seq<Action>) returns (acts': seq<Action>)
    requires Enabled(s, a) && CanRun(Step(s, a), acts)
    ensures acts' == [a] + acts && CanRun(s, acts') && Run(s, acts') == Run(Step(s, a), acts)
    ensures forall e :: Undisturbed(s, acts', e) <==> !Disturbs(s, e, a) && Undisturbed(Step(s, a), acts, e)
  {
    acts' := [a] + acts;
    assert acts'[1..] == acts;
  }

  /** With one global permit: request `e` takes it, request `f` is refused for the want of it, and
      then the record of `e` cannot be created. */
  lemma RefusalCanDisturb(s0: State, e: nat, f: nat, route: string) returns (acts: seq<Action>)
    requires IsInit(s0) && s0.limit == 1 && route in s0.routes && s0.routes[route].limit > 0
    requires e !in s0.execs && f !in s0.execs && e != f
    ensures CanRun(s0, acts) && e in Run(s0, acts).execs && Run(s0, acts).execs[e].Rejected?
    ensures f in Run(s0, acts).execs && Run(s0, acts).execs[f].Rejected?
    ensures !Undisturbed(s0, acts, e)
  {
    var s1 := Admit(s0, e, route);
    var s2 := Admit(s1, f, route);
    var s3 := AdmitRoute(s2, e, route);
    var s4 := Refunded(s3, e, route);
    assert CanRun(s4, []) && Run(s4, []) == s4;
    acts := Prepend(s3, CreateFails(e), []);
    acts := Prepend(s2, TryRoute(e), acts);
    acts := Prepend(s1, Arrive(f, route), acts);
    assert Disturbs(s1, e, Arrive(f, route));
    acts := Prepend(s0, Arrive(e, route), acts);
  }
}
