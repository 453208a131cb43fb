/** The generation loop (src/runtime.rs, `run`) and the management requests that end a
    generation (src/app.rs, `request_management_action`, `restart_service`): a compare-and-swap,
    a one-slot channel and an external shutdown flag. */
module Generations {
  import opened TaskModel

  datatype Management = Stop | Restart(directory: string)

  /** One management request: it runs compare_exchange, then try_send. */
  datatype Handler = Calling(action: Management) | Won(action: Management) | Accepted(action: Management) | Refused

  /** The task that waits for the external flag or for the channel. */
  datatype Watcher = Unstarted | Selecting | Chose(action: Management, fromSlot: bool)

  datatype Phase =
    | Opening                      // top of the loop
    | Serving                      // servers up, handlers may run
    | Ending(action: Management)   // servers down, tasks being drained
    | Stopped
    | DirectoryBail                // the bail! at the top of the loop
    | ErrorExit                    // any other error return

  datatype State = State(
    firstDirectory: string,
    directory: string,
    generation: nat,
    phase: Phase,
    lifecycle: nat,                // 0 or 1
    slot: Option<Management>,
    receiverOpen: bool,
    handlers: map<nat, Handler>,   // of the current generation
    watcher: Watcher,
    external: bool,
    signalledIn: nat,              // generation in which the external flag was set
    sendFoundFull: bool,
    carriedOut: seq<Management>)   // how each past generation ended

  datatype Action =
    | Signal
    | OpenStore
    | OpenFails
    | Request(h: nat, action: Management)
    | CompareExchange(h: nat)
    | TrySend(h: nat)
    | WatchStart
    | WatchExternal
    | WatchReceive
    | CloseReceiver
    | ServersEnd
    | ServersFail
    | DrainFails
    | NextGeneration

  function Init(directory: string): State {
    State(directory, directory, 0, Opening, 0, None, true, map[], Unstarted, false, 0, false, [])
  }

  predicate AtRest(h: Handler) { h.Accepted? || h.Refused? }

  predicate Enabled(s: State, a: Action) {
    match a
    case Signal => !s.external
    case OpenStore => s.phase.Opening?
    case OpenFails => s.phase.Opening? && s.directory == s.firstDirectory
    case Request(h, _) => s.phase.Serving? && h !in s.handlers
    case CompareExchange(h) => s.phase.Serving? && h in s.handlers && s.handlers[h].Calling?
    case TrySend(h) => s.phase.Serving? && h in s.handlers && s.handlers[h].Won?
    case WatchStart => s.phase.Serving? && s.watcher.Unstarted?
    case WatchExternal => s.phase.Serving? && s.watcher.Selecting? && s.external
    case WatchReceive => s.phase.Serving? && s.watcher.Selecting? && s.slot.Some?
    case CloseReceiver => s.phase.Serving? && s.watcher.Chose? && s.receiverOpen
    case ServersEnd =>
      s.phase.Serving? && s.watcher.Chose? && forall h :: h in s.handlers ==> AtRest(s.handlers[h])
    case ServersFail => s.phase.Serving?
    case DrainFails => s.phase.Ending?
    case NextGeneration => s.phase.Ending?
  }

  /** restart_service refuses a configuration with another logging directory before it calls
      request_management_action. */
  function Received(s: State, action: Management): Handler {
    if action.Restart? && action.directory != s.directory then Refused else Calling(action)
  }

  function Sent(s: State, h: nat, action: Management): State {
    if s.receiverOpen && s.slot.None? then
      s.(slot := Some(action), handlers := s.handlers[h := Accepted(action)])
    else
      s.(lifecycle := 0, handlers := s.handlers[h := Refused],
         sendFoundFull := s.sendFoundFull || (s.receiverOpen && s.slot.Some?))
  }

  function Step(s: State, a: Action): State
    requires Enabled(s, a)
  {
    match a
    case Signal => s.(external := true, signalledIn := s.generation)
    case OpenStore =>
      if s.directory != s.firstDirectory then s.(phase := DirectoryBail)
      else s.(phase := Serving, lifecycle := 0, slot := None, receiverOpen := true, handlers := map[], watcher := Unstarted)
    case OpenFails => s.(phase := ErrorExit)
    case Request(h, action) => s.(handlers := s.handlers[h := Received(s, action)])
    case CompareExchange(h) =>
      if s.lifecycle == 0 then s.(lifecycle := 1, handlers := s.handlers[h := Won(s.handlers[h].action)])
      else s.(handlers := s.handlers[h := Refused])
    case TrySend(h) => Sent(s, h, s.handlers[h].action)
    case WatchStart => s.(watcher := if s.external then Chose(Stop, false) else Selecting)
    case WatchExternal => s.(watcher := Chose(Stop, false))
    case WatchReceive => s.(watcher := Chose(s.slot.value, true), slot := None)
    case CloseReceiver => s.(receiverOpen := false, slot := None)
    case ServersEnd => s.(phase := Ending(s.watcher.action))
    case ServersFail => s.(phase := ErrorExit)
    case DrainFails => s.(phase := ErrorExit)
    case NextGeneration =>
      var ended := s.(carriedOut := s.carriedOut + [s.phase.action]);
      (match s.phase.action
       case Stop => ended.(phase := Stopped)
       case Restart(directory) => ended.(directory := directory, generation := s.generation + 1, phase := Opening))
  }

  predicate CanRun(s: State, acts: seq<Action>)
    decreases |acts|
  {
    acts == [] || (Enabled(s, acts[0]) && CanRun(Step(s, acts[0]), acts[1..]))
  }

  function Run(s: State, acts: seq<Action>): State
    requires CanRun(s, acts)
    decreases |acts|
  {
    if acts == [] then s else Run(Step(s, acts[0]), acts[1..])
  }

  // ---- The invariant ----

  /** This handler has won the compare-and-swap of its generation and not given it back. */
  predicate Holding(h: Handler) { h.Won? || h.Accepted? }

  predicate AtMostOneHolder(s: State) {
    && (forall i, j :: i in s.handlers && j in s.handlers && Holding(s.handlers[i]) && Holding(s.handlers[j]) ==> i == j)
    && ((exists i :: i in s.handlers && Holding(s.handlers[i])) <==> s.lifecycle == 1)
    && s.lifecycle <= 1
  }

  predicate HasAccepted(s: State, action: Management) {
    exists h :: h in s.handlers && s.handlers[h] == Accepted(action)
  }

  predicate Keeps(action: Management, directory: string) {
    action.Restart? ==> action.directory == directory
  }

  predicate HandlersKeepDirectory(s: State) {
    forall h :: h in s.handlers && !s.handlers[h].Refused? ==> Keeps(s.handlers[h].action, s.directory)
  }

  predicate ChoiceOk(s: State) {
    s.watcher.Chose? ==>
      if s.watcher.fromSlot then HasAccepted(s, s.watcher.action) && s.slot.None?
      else s.watcher.action == Stop && s.external
  }

  predicate ServingInv(s: State) {
    && AtMostOneHolder(s)
    && HandlersKeepDirectory(s)
    && (s.slot.Some? ==> s.receiverOpen && HasAccepted(s, s.slot.value))
    && ChoiceOk(s)
    && (!s.receiverOpen ==> s.watcher.Chose?)
    && (s.external && s.signalledIn < s.generation ==>
          s.watcher.Unstarted? || (s.watcher.Chose? && s.watcher.action == Stop))
  }

  predicate EndingOk(s: State, action: Management) {
    && Keeps(action, s.directory)
    && AtMostOneHolder(s) && ChoiceOk(s) && s.watcher.Chose? && s.watcher.action == action
    && (s.external && s.signalledIn < s.generation ==> action == Stop)
  }

  predicate Inv(s: State) {
    && !s.sendFoundFull
    && s.directory == s.firstDirectory
    && !s.phase.DirectoryBail?
    && (s.phase.Serving? ==> ServingInv(s))
    && (s.phase.Ending? ==> EndingOk(s, s.phase.action))
    && (s.external ==> s.signalledIn <= s.generation <= s.signalledIn + 1)
    && |s.carriedOut| == (if s.phase.Stopped? then s.generation + 1 else s.generation)
    && (forall i :: 0 <= i < s.generation && i < |s.carriedOut| ==> s.carriedOut[i] == Restart(s.firstDirectory))
    && (s.phase.Stopped? ==> s.carriedOut[s.generation] == Stop)
  }

  /** Changing a handler that is not Accepted keeps what has been accepted. */
  lemma AcceptedStays(s: State, s': State, h: nat, action: Management)
    requires HasAccepted(s, action) && (h in s.handlers ==> !s.handlers[h].Accepted?)
    requires h in s'.handlers && s'.handlers == s.handlers[h := s'.handlers[h]]
    ensures HasAccepted(s', action)
  {
    var k :| k in s.handlers && s.handlers[k] == Accepted(action);
    assert k in s'.handlers && s'.handlers[k] == Accepted(action);
  }

  lemma HandlerKeepsServing(s: State, s': State, h: nat)
    requires ServingInv(s) && (h in s.handlers ==> !s.handlers[h].Accepted?) && h in s'.handlers
    requires s' == s.(handlers := s.handlers[h := s'.handlers[h]], lifecycle := s'.lifecycle, slot := s'.slot,
                      sendFoundFull := s'.sendFoundFull)
    requires s'.slot == s.slot || (s.slot.None? && s.receiverOpen && s'.slot.Some? && s'.handlers[h] == Accepted(s'.slot.value)
                                   && !(s.watcher.Chose? && s.watcher.fromSlot))
    requires !s'.handlers[h].Refused? ==> Keeps(s'.handlers[h].action, s.directory)
    requires AtMostOneHolder(s')
    ensures ServingInv(s')
  {
    if s.slot.Some? { AcceptedStays(s, s', h, s.slot.value); }
    if s.watcher.Chose? && s.watcher.fromSlot { AcceptedStays(s, s', h, s.watcher.action); }
  }

  lemma RequestKeepsInv(s: State, h: nat, action: Management)
    requires Inv(s) && Enabled(s, Request(h, action))
    ensures Inv(Step(s, Request(h, action)))
  {
    var s' := Step(s, Request(h, action));
    if i :| i in s.handlers && Holding(s.handlers[i]) { assert i in s'.handlers && Holding(s'.handlers[i]); }
    HandlerKeepsServing(s, s', h);
  }

  lemma CompareExchangeKeepsInv(s: State, h: nat)
    requires Inv(s) && Enabled(s, CompareExchange(h))
    ensures Inv(Step(s, CompareExchange(h)))
  {
    var s' := Step(s, CompareExchange(h));
    if i :| i in s.handlers && Holding(s.handlers[i]) { assert i in s'.handlers && Holding(s'.handlers[i]); }
    HandlerKeepsServing(s, s', h);
  }

  /** The winner finds the slot empty: whoever filled it would hold the flag. */
  lemma WinnerFindsSlotEmpty(s: State, h: nat)
    requires ServingInv(s) && h in s.handlers && s.handlers[h].Won?
    ensures s.slot.None? && !(s.watcher.Chose? && s.watcher.fromSlot)
  {
    assert Holding(s.handlers[h]);
    forall k | k in s.handlers ensures !s.handlers[k].Accepted? {
      assert k != h ==> !Holding(s.handlers[k]);
    }
  }

  lemma TrySendKeepsInv(s: State, h: nat)
    requires Inv(s) && Enabled(s, TrySend(h))
    ensures Inv(Step(s, TrySend(h)))
  {
    var s' := Step(s, TrySend(h));
    WinnerFindsSlotEmpty(s, h);
    assert Holding(s.handlers[h]);
    if s'.handlers[h].Accepted? { assert Holding(s'.handlers[h]); }
    HandlerKeepsServing(s, s', h);
  }

  lemma WatcherKeepsInv(s: State, a: Action)
    requires Inv(s) && Enabled(s, a) && (a.WatchStart? || a.WatchExternal? || a.WatchReceive? || a.CloseReceiver?)
    ensures Inv(Step(s, a))
  {
  }

  lemma LoopKeepsInv(s: State, a: Action)
    requires Inv(s) && Enabled(s, a) && (a.ServersEnd? || a.ServersFail? || a.DrainFails? || a.NextGeneration?)
    ensures Inv(Step(s, a))
  {
  }

  lemma OpeningKeepsInv(s: State, a: Action)
    requires Inv(s) && Enabled(s, a) && (a.Signal? || a.OpenStore? || a.OpenFails?)
    ensures Inv(Step(s, a))
  {
  }

  lemma StepKeepsInv(s: State, a: Action)
    requires Inv(s) && Enabled(s, a)
    ensures Inv(Step(s, a))
  {
    match a
    case Request(h, action) => RequestKeepsInv(s, h, action);
    case CompareExchange(h) => CompareExchangeKeepsInv(s, h);
    case TrySend(h) => TrySendKeepsInv(s, h);
    case _ =>
      if a.WatchStart? || a.WatchExternal? || a.WatchReceive? || a.CloseReceiver? {
        WatcherKeepsInv(s, a);
      } else if a.Signal? || a.OpenStore? || a.OpenFails? {
        OpeningKeepsInv(s, a);
      } else {
        LoopKeepsInv(s, a);
      }
  }

  lemma {:induction false} RunKeepsInv(s: State, acts: seq<Action>)
    requires Inv(s) && CanRun(s, acts)
    ensures Inv(Run(s, acts))
    decreases |acts|
  {
    if acts != [] {
      StepKeepsInv(s, acts[0]);
      RunKeepsInv(Step(s, acts[0]), acts[1..]);
    }
  }

  // ---- Results, over every run ----

  /** Each generation accepts at most one stop or restart, no accepted request ever meets a full
      slot, and the logging directory never changes, so the loop never bails out over it. */
  lemma OneActionPerGeneration(directory: string, acts: seq<Action>)
    requires CanRun(Init(directory), acts)
    ensures var s := Run(Init(directory), acts);
            && (s.phase.Serving? || s.phase.Ending? ==>
                  forall i, j :: i in s.handlers && j in s.handlers && s.handlers[i].Accepted? && s.handlers[j].Accepted? ==>
                    i == j)
            && !s.sendFoundFull
            && s.directory == directory && !s.phase.DirectoryBail?
  {
    RunKeepsInv(Init(directory), acts);
    FirstDirectoryIsFixed(Init(directory), acts);
    var s := Run(Init(directory), acts);
    if s.phase.Serving? || s.phase.Ending? {
      assert AtMostOneHolder(s);
      assert forall h :: h in s.handlers && s.handlers[h].Accepted? ==> Holding(s.handlers[h]);
    }
  }

  lemma {:induction false} FirstDirectoryIsFixed(s: State, acts: seq<Action>)
    requires CanRun(s, acts)
    ensures Run(s, acts).firstDirectory == s.firstDirectory
    decreases |acts|
  {
    if acts != [] {
      FirstDirectoryIsFixed(Step(s, acts[0]), acts[1..]);
    }
  }

  /** A generation ends by the action it accepted, unless external shutdown was chosen. */
  lemma AcceptedIsCarriedOut(directory: string, acts: seq<Action>, h: nat)
    requires CanRun(Init(directory), acts)
    requires var s := Run(Init(directory), acts); s.phase.Ending? && h in s.handlers && s.handlers[h].Accepted?
    ensures var s := Run(Init(directory), acts);
            || s.phase.action == s.handlers[h].action
            || (s.phase.action == Stop && s.external && s.watcher == Chose(Stop, false))
  {
    RunKeepsInv(Init(directory), acts);
    var s := Run(Init(directory), acts);
    if s.watcher.fromSlot {
      var k :| k in s.handlers && s.handlers[k] == Accepted(s.watcher.action);
      assert Holding(s.handlers[k]) && Holding(s.handlers[h]);
    }
  }

  /** After the external signal at most one further generation starts, and it ends by Stop.
      Every generation but the last ended by a restart that kept the directory. */
  lemma ExternalShutdownEnds(directory: string, acts: seq<Action>)
    requires CanRun(Init(directory), acts)
    ensures var s := Run(Init(directory), acts);
            && (s.external ==> s.generation <= s.signalledIn + 1)
            && (s.external && s.signalledIn < s.generation && s.phase.Ending? ==> s.phase.action == Stop)
            && (forall i :: 0 <= i < s.generation && i < |s.carriedOut| ==> s.carriedOut[i] == Restart(directory))
            && (s.phase.Stopped? ==> |s.carriedOut| == s.generation + 1 && s.carriedOut[s.generation] == Stop)
  {
    RunKeepsInv(Init(directory), acts);
    FirstDirectoryIsFixed(Init(directory), acts);
  }

  // ---- What becomes of a request ----

  /** What request `h` asks for. */
  function Asked(acts: seq<Action>, h: nat): Option<Management> {
    if acts == [] then None
    else if acts[0].Request? && acts[0].h == h then Some(acts[0].action)
    else Asked(acts[1..], h)
  }

  /** Request `h` found the flag free at its compare-and-swap. */
  predicate FlagWasFree(s: State, acts: seq<Action>, h: nat)
    requires CanRun(s, acts)
    decreases |acts|
  {
    acts != [] && if acts[0] == CompareExchange(h) then s.lifecycle == 0 else FlagWasFree(Step(s, acts[0]), acts[1..], h)
  }

  /** The receiver was still open when request `h` sent. */
  predicate ReceiverWasOpen(s: State, acts: seq<Action>, h: nat)
    requires CanRun(s, acts)
    decreases |acts|
  {
    acts != [] && if acts[0] == TrySend(h) then s.receiverOpen else ReceiverWasOpen(Step(s, acts[0]), acts[1..], h)
  }

  /** The run ends in the generation it began in. */
  predicate SameGeneration(s: State, end: State) {
    end.generation == s.generation && (end.phase.Serving? || end.phase.Ending?)
  }

  lemma {:induction false} GenerationsCountUp(s: State, acts: seq<Action>)
    requires CanRun(s, acts)
    ensures s.generation <= Run(s, acts).generation
    ensures s.phase.ErrorExit? || s.phase.Stopped? || s.phase.DirectoryBail? ==> Run(s, acts).phase == s.phase
    decreases |acts|
  {
    if acts != [] {
      GenerationsCountUp(Step(s, acts[0]), acts[1..]);
    }
  }

  /** Within a generation the phase is Serving, then Ending. */
  lemma StaysInGeneration(s: State, acts: seq<Action>)
    requires acts != [] && CanRun(s, acts) && SameGeneration(s, Run(s, acts)) && (s.phase.Serving? || s.phase.Ending?)
    ensures var s' := Step(s, acts[0]);
            && SameGeneration(s', Run(s, acts)) && s'.directory == s.directory
            && (s'.phase.Serving? || s'.phase.Ending?) && (s'.phase.Serving? ==> s.phase.Serving?)
  {
    GenerationsCountUp(Step(s, acts[0]), acts[1..]);
  }

  lemma {:induction false} RestStays(s: State, acts: seq<Action>, h: nat)
    requires CanRun(s, acts) && SameGeneration(s, Run(s, acts)) && (s.phase.Serving? || s.phase.Ending?)
    requires h in s.handlers && AtRest(s.handlers[h])
    ensures h in Run(s, acts).handlers && Run(s, acts).handlers[h] == s.handlers[h]
    decreases |acts|
  {
    if acts != [] {
      StaysInGeneration(s, acts);
      RestStays(Step(s, acts[0]), acts[1..], h);
    }
  }

  /** Request `h` is at rest at the end of the run. */
  predicate Ends(s: State, acts: seq<Action>, h: nat)
    requires CanRun(s, acts)
  {
    SameGeneration(s, Run(s, acts)) && h in Run(s, acts).handlers && AtRest(Run(s, acts).handlers[h])
  }

  /** One step on within the generation. */
  lemma Onward(s: State, acts: seq<Action>, h: nat)
    requires Inv(s) && CanRun(s, acts) && acts != [] && Ends(s, acts, h) && (s.phase.Serving? || s.phase.Ending?)
    ensures var s' := Step(s, acts[0]);
            && Inv(s') && Ends(s', acts[1..], h) && s'.directory == s.directory && (s'.phase.Serving? || s'.phase.Ending?)
  {
    StepKeepsInv(s, acts[0]);
    StaysInGeneration(s, acts);
  }

  /** A request that is under way stays so, and its generation serves on, until its own next step. */
  lemma HandlerStays(s: State, a: Action, h: nat)
    requires s.phase.Serving? && Enabled(s, a) && h in s.handlers && !AtRest(s.handlers[h])
    requires a != CompareExchange(h) && a != TrySend(h) && !Step(s, a).phase.ErrorExit?
    ensures var s' := Step(s, a); s'.phase.Serving? && h in s'.handlers && s'.handlers[h] == s.handlers[h]
  {
  }

  lemma {:induction false} WinnerSends(s: State, acts: seq<Action>, h: nat)
    requires Inv(s) && CanRun(s, acts) && Ends(s, acts, h) && s.phase.Serving? && h in s.handlers && s.handlers[h].Won?
    ensures Run(s, acts).handlers[h] ==
            if ReceiverWasOpen(s, acts, h) then Accepted(s.handlers[h].action) else Refused
    decreases |acts|
  {
    var s' := Step(s, acts[0]);
    Onward(s, acts, h);
    if acts[0] == TrySend(h) {
      WinnerFindsSlotEmpty(s, h);
      RestStays(s', acts[1..], h);
    } else {
      HandlerStays(s, acts[0], h);
      WinnerSends(s', acts[1..], h);
    }
  }

  lemma {:induction false} CallerCompetes(s: State, acts: seq<Action>, h: nat)
    requires Inv(s) && CanRun(s, acts) && Ends(s, acts, h) && s.phase.Serving? && h in s.handlers && s.handlers[h].Calling?
    ensures Run(s, acts).handlers[h] ==
            if FlagWasFree(s, acts, h) && ReceiverWasOpen(s, acts, h) then Accepted(s.handlers[h].action) else Refused
    decreases |acts|
  {
    var s' := Step(s, acts[0]);
    Onward(s, acts, h);
    if acts[0] == CompareExchange(h) {
      if s.lifecycle == 0 { WinnerSends(s', acts[1..], h); } else { RestStays(s', acts[1..], h); }
    } else {
      HandlerStays(s, acts[0], h);
      CallerCompetes(s', acts[1..], h);
    }
  }

  lemma StaysAbsent(s: State, a: Action, h: nat)
    requires (s.phase.Serving? || s.phase.Ending?) && Enabled(s, a) && h !in s.handlers && !(a.Request? && a.h == h)
    ensures h !in Step(s, a).handlers
  {
  }

  lemma {:induction false} RequestEnds(s: State, acts: seq<Action>, h: nat)
    requires Inv(s) && CanRun(s, acts) && Ends(s, acts, h) && (s.phase.Serving? || s.phase.Ending?) && h !in s.handlers
    ensures Asked(acts, h).Some?
    ensures var action := Asked(acts, h).value;
            Run(s, acts).handlers[h] ==
            if Keeps(action, s.directory) && FlagWasFree(s, acts, h) && ReceiverWasOpen(s, acts, h) then Accepted(action) else Refused
    decreases |acts|
  {
    var s' := Step(s, acts[0]);
    Onward(s, acts, h);
    if acts[0].Request? && acts[0].h == h {
      if Keeps(acts[0].action, s.directory) { CallerCompetes(s', acts[1..], h); } else { RestStays(s', acts[1..], h); }
    } else {
      StaysAbsent(s, acts[0], h);
      RequestEnds(s', acts[1..], h);
    }
  }

  /** The exact condition of acceptance. In any generation of any run, a request that has been
      answered was accepted, for just what it asked, if and only if it keeps the logging directory,
      found the flag free at its compare-and-swap, and the receiver open when it sent. */
  lemma AcceptedIff(directory: string, first: seq<Action>, acts: seq<Action>, h: nat)
    requires CanRun(Init(directory), first) && Run(Init(directory), first).phase.Serving?
    requires h !in Run(Init(directory), first).handlers
    requires CanRun(Run(Init(directory), first), acts) && Ends(Run(Init(directory), first), acts, h)
    ensures Asked(acts, h).Some?
    ensures var s := Run(Init(directory), first);
            var action := Asked(acts, h).value;
            Run(s, acts).handlers[h] ==
            if Keeps(action, directory) && FlagWasFree(s, acts, h) && ReceiverWasOpen(s, acts, h) then Accepted(action) else Refused
  {
    RunKeepsInv(Init(directory), first);
    FirstDirectoryIsFixed(Init(directory), first);
    RequestEnds(Run(Init(directory), first), acts, h);
  }

  // ---- Every action can be carried out ----

  /** `acts` leads from `s` to `end`. */
  predicate Leads(s: State, acts: seq<Action>, end: State) {
    CanRun(s, acts) && Run(s, acts) == end
  }

  lemma {:induction false} Then(s: State, acts: seq<Action>, mid: State, a: Action)
    requires Leads(s, acts, mid) && Enabled(mid, a)
    ensures Leads(s, acts + [a], Step(mid, a))
    decreases |acts|
  {
    if acts == [] {
      assert [] + [a] == [a] && [a][1..] == [];
      assert CanRun(Step(mid, a), []);
    } else {
      Then(Step(s, acts[0]), acts[1..], mid, a);
      assert (acts + [a])[1..] == acts[1..] + [a];
    }
  }

  /** The handler of a request wins, sends and is accepted. */
  lemma Accepts(s0: State, acts: seq<Action>, s: State, action: Management) returns (acts': seq<Action>, s': State)
    requires Leads(s0, acts, s) && s.phase.Opening? && s.directory == s.firstDirectory && Keeps(action, s.directory)
    ensures Leads(s0, acts', s')
    ensures s' == s.(phase := Serving, lifecycle := 1, slot := Some(action), receiverOpen := true,
                     handlers := map[0 := Accepted(action)], watcher := Unstarted)
  {
    var s1 := Step(s, OpenStore);
    Then(s0, acts, s, OpenStore);
    var s2 := Step(s1, Request(0, action));
    Then(s0, acts + [OpenStore], s1, Request(0, action));
    var s3 := Step(s2, CompareExchange(0));
    Then(s0, acts + [OpenStore] + [Request(0, action)], s2, CompareExchange(0));
    s' := Step(s3, TrySend(0));
    Then(s0, acts + [OpenStore] + [Request(0, action)] + [CompareExchange(0)], s3, TrySend(0));
    acts' := acts + [OpenStore] + [Request(0, action)] + [CompareExchange(0)] + [TrySend(0)];
    assert map[0 := Calling(action)][0 := Won(action)] == map[0 := Won(action)];
    assert map[0 := Won(action)][0 := Accepted(action)] == map[0 := Accepted(action)];
  }

  /** The watcher receives the accepted action and the generation ends by it. */
  lemma CarriesOut(s0: State, acts: seq<Action>, s: State, action: Management) returns (acts': seq<Action>, s': State)
    requires Leads(s0, acts, s) && s.phase.Serving? && s.watcher.Unstarted? && !s.external && s.slot == Some(action)
    requires s.handlers == map[0 := Accepted(action)]
    ensures Leads(s0, acts', s') && s'.carriedOut == s.carriedOut + [action] && !s'.external && s'.firstDirectory == s.firstDirectory
    ensures action.Stop? ==> s'.phase == Stopped && s'.generation == s.generation
    ensures action.Restart? ==> s'.phase == Opening && s'.generation == s.generation + 1 && s'.directory == action.directory
  {
    var s1 := Step(s, WatchStart);
    Then(s0, acts, s, WatchStart);
    var s2 := Step(s1, WatchReceive);
    Then(s0, acts + [WatchStart], s1, WatchReceive);
    var s3 := Step(s2, ServersEnd);
    Then(s0, acts + [WatchStart] + [WatchReceive], s2, ServersEnd);
    s' := Step(s3, NextGeneration);
    Then(s0, acts + [WatchStart] + [WatchReceive] + [ServersEnd], s3, NextGeneration);
    acts' := acts + [WatchStart] + [WatchReceive] + [ServersEnd] + [NextGeneration];
  }

  /** Any number of restarts that keep the directory, and then a stop, can be carried out one after
      the other. */
  lemma {:induction false} RestartsCanBeCarriedOut(directory: string, n: nat) returns (acts: seq<Action>, s: State)
    ensures Leads(Init(directory), acts, s)
    ensures s.phase == Opening && s.generation == n && s.directory == directory && s.firstDirectory == directory && !s.external
    ensures s.carriedOut == seq(n, _ => Restart(directory))
  {
    acts, s := [], Init(directory);
    if n > 0 {
      acts, s := RestartsCanBeCarriedOut(directory, n - 1);
      acts, s := Accepts(Init(directory), acts, s, Restart(directory));
      acts, s := CarriesOut(Init(directory), acts, s, Restart(directory));
      assert seq(n, _ => Restart(directory)) == seq(n - 1, _ => Restart(directory)) + [Restart(directory)];
    }
  }

  lemma StopsAfterRestarts(directory: string, n: nat) returns (acts: seq<Action>, s: State)
    ensures Leads(Init(directory), acts, s) && s.phase == Stopped && s.generation == n
    ensures s.carriedOut == seq(n, _ => Restart(directory)) + [Stop]
  {
    acts, s := RestartsCanBeCarriedOut(directory, n);
    acts, s := Accepts(Init(directory), acts, s, Stop);
    acts, s := CarriesOut(Init(directory), acts, s, Stop);
  }

  /** An external shutdown can end any generation, with no request at all. */
  lemma ShutdownCanEnd(directory: string, n: nat) returns (acts: seq<Action>, s: State)
    ensures Leads(Init(directory), acts, s) && s.phase == Stopped && s.generation == n && s.external
    ensures s.carriedOut == seq(n, _ => Restart(directory)) + [Stop]
  {
    var s0 := Init(directory);
    acts, s := RestartsCanBeCarriedOut(directory, n);
    Then(s0, acts, s, OpenStore);
    acts, s := acts + [OpenStore], Step(s, OpenStore);
    Then(s0, acts, s, WatchStart);
    acts, s := acts + [WatchStart], Step(s, WatchStart);
    Then(s0, acts, s, Signal);
    acts, s := acts + [Signal], Step(s, Signal);
    Then(s0, acts, s, WatchExternal);
    acts, s := acts + [WatchExternal], Step(s, WatchExternal);
    Then(s0, acts, s, ServersEnd);
    acts, s := acts + [ServersEnd], Step(s, ServersEnd);
    Then(s0, acts, s, NextGeneration);
    acts, s := acts + [NextGeneration], Step(s, NextGeneration);
  }
}
