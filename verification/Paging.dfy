/** Reading output by offset (src/store.rs, `output_chunk`): one call, the chain of calls that
    a client makes while the task still writes, and the chain on a finished task. */
module Paging {
  import opened TaskModel
  import opened OutputCapture
  import S = Supervisor
  import SI = SupervisorInvariant
  import R = SupervisorRuns

  const MAX_LIMIT: nat := 1024 * 1024

  datatype PageError = BadLimit | NoTask | WrongStream | NoFile | OffsetBeyondEnd

  datatype Chunk = Chunk(offset: nat, data: seq<Byte>, nextOffset: nat, eof: bool)

  datatype PageResult = Page(chunk: Chunk) | Refused(error: PageError)

  predicate StreamExists(mode: OutputMode, stream: OutputStream) {
    mode.Combined? <==> stream.CombinedStream?
  }

  /** `n` bytes, for UTF-16 rounded down to whole code units. */
  function Whole(encoding: OutputEncoding, n: nat): nat {
    if encoding.Utf16le? then 2 * (n / 2) else n
  }

  /** The number of bytes that a call reads: the limit or what is left, for UTF-16 rounded down
      to whole code units. */
  function ReadLength(encoding: OutputEncoding, offset: nat, limit: nat, size: nat): (n: nat)
    requires offset <= size
    ensures n <= limit && offset + n <= size
    ensures encoding.Utf16le? ==> n % 2 == 0
    ensures n < limit && offset + n < size ==> encoding.Utf16le? && (n + 1 == limit || offset + n + 1 == size)
  {
    Whole(encoding, Min(limit, size - offset))
  }

  /** The chunk that a call returns: the bytes from the offset, as many as it reads, and `eof` if the
      task was finished and they reach the end. */
  function ChunkAt(finished: bool, encoding: OutputEncoding, file: seq<Byte>, offset: nat, limit: nat): (chunk: Chunk)
    requires offset <= |file|
    ensures chunk.offset == offset <= chunk.nextOffset <= |file|
    ensures chunk.data == file[offset..chunk.nextOffset] && |chunk.data| == ReadLength(encoding, offset, limit, |file|)
    ensures chunk.eof <==> finished && chunk.nextOffset == |file|
  {
    var next := offset + ReadLength(encoding, offset, limit, |file|);
    Chunk(offset, file[offset..next], next, finished && next >= |file|)
  }

  /** One call. `task` is the snapshot at the moment its status is read, `file` the contents at
      the later moment its size is read. */
  method OutputChunk(task: Option<TaskSnapshot>, stream: OutputStream, file: Option<seq<Byte>>, offset: nat, limit: nat)
    returns (r: PageResult)
    ensures r.Page? <==>
              && 1 <= limit <= MAX_LIMIT && task.Some? && StreamExists(task.value.outputMode, stream)
              && file.Some? && offset <= |file.value|
    ensures r.Page? ==>
              && r.chunk.offset == offset <= r.chunk.nextOffset <= |file.value|
              && r.chunk.data == file.value[offset..r.chunk.nextOffset]
              && r.chunk.nextOffset == offset + ReadLength(task.value.encoding, offset, limit, |file.value|)
              && (r.chunk.eof <==> IsFinished(task.value.status) && r.chunk.nextOffset == |file.value|)
              && r.chunk == ChunkAt(IsFinished(task.value.status), task.value.encoding, file.value, offset, limit)
    ensures r.Refused? ==>
              && (r.error.BadLimit? <==> limit < 1 || MAX_LIMIT < limit)
              && (r.error.NoTask? <==> 1 <= limit <= MAX_LIMIT && task.None?)
              && (r.error.WrongStream? <==>
                    1 <= limit <= MAX_LIMIT && task.Some? && !StreamExists(task.value.outputMode, stream))
              && (r.error.NoFile? <==>
                    1 <= limit <= MAX_LIMIT && task.Some? && StreamExists(task.value.outputMode, stream) && file.None?)
              && (r.error.OffsetBeyondEnd? <==>
                    && 1 <= limit <= MAX_LIMIT && task.Some? && StreamExists(task.value.outputMode, stream)
                    && file.Some? && |file.value| < offset)
  {
    if limit == 0 || limit > MAX_LIMIT { return Refused(BadLimit); }
    if task.None? { return Refused(NoTask); }
    var snapshot := task.value;
    match (snapshot.outputMode, stream) {
      case (Separate, CombinedStream) => return Refused(WrongStream);
      case (Combined, StdoutStream) => return Refused(WrongStream);
      case (Combined, StderrStream) => return Refused(WrongStream);
      case _ =>
    }
    if file.None? { return Refused(NoFile); }
    var size := |file.value|;
    if offset > size { return Refused(OffsetBeyondEnd); }
    var readLimit := if limit < size - offset then limit else size - offset;
    if snapshot.encoding.Utf16le? && readLimit % 2 != 0 {
      readLimit := readLimit - 1;
    }
    var data := file.value[offset..offset + readLimit];
    var nextOffset := offset + |data|;
    return Page(Chunk(offset, data, nextOffset, IsFinished(snapshot.status) && nextOffset >= size));
  }

  // ---- A chain of calls while the task runs ----

  /** A task, the files of its streams, and a client that pages through stream `k`. A call reads
      the status first and the file later; `status` holds the answer in between. */
  datatype State = State(
    sup: S.State,
    files: seq<seq<Byte>>,
    k: nat,
    status: Option<bool>,
    offset: nat,
    collected: seq<Byte>,
    eof: bool)

  datatype Action =
    | Sup(act: S.Action)
    | Append(j: nat, bytes: seq<Byte>)   // a reader that has not returned writes to its file
    | ReadStatus
    | ReadFile(limit: nat)

  /** Reader `j` can still receive bytes: the worker that writes to its pipe was spawned, and the
      reader has not stopped. */
  predicate CanWrite(env: S.Env, j: nat) {
    env.spawned && j < |env.readers| && env.readers[j].Reading?
  }

  predicate Enabled(c: S.Config, s: State, a: Action) {
    match a
    case Sup(act) => S.Enabled(c, s.sup, act)
    case Append(j, _) => CanWrite(s.sup.env, j) && j < |s.files|
    case ReadStatus => true
    case ReadFile(limit) =>
      s.status.Some? && 1 <= limit <= MAX_LIMIT && s.k < |s.files| && s.offset <= |s.files[s.k]|
  }

  function Step(c: S.Config, s: State, a: Action): State
    requires Enabled(c, s, a)
  {
    match a
    case Sup(act) => s.(sup := S.Apply(c, s.sup, act))
    case Append(j, bytes) => s.(files := s.files[j := s.files[j] + bytes])
    case ReadStatus => s.(status := Some(IsFinished(s.sup.core.snap.status)))
    case ReadFile(limit) =>
      var chunk := ChunkAt(s.status.value, s.sup.core.snap.encoding, s.files[s.k], s.offset, limit);
      s.(status := None, offset := chunk.nextOffset, collected := s.collected + chunk.data, eof := s.eof || chunk.eof)
  }

  function Init(sup: S.State, n: nat, k: nat): State {
    State(sup, seq(n, _ => []), k, None, 0, [], false)
  }

  predicate Inv(s: State) {
    && SI.Safe(s.sup)
    && s.k < |s.files|
    && s.offset <= |s.files[s.k]|
    && s.collected == s.files[s.k][..s.offset]
    && (s.status == Some(true) || s.eof ==> IsFinished(s.sup.core.snap.status))
    && (s.eof && s.sup.core.published ==> s.offset == |s.files[s.k]|)
  }

  predicate CanRun(c: S.Config, s: State, acts: seq<Action>)
    decreases |acts|
  {
    acts == [] || (Enabled(c, s, acts[0]) && CanRun(c, Step(c, s, acts[0]), acts[1..]))
  }

  function Run(c: S.Config, s: State, acts: seq<Action>): State
    requires CanRun(c, s, acts)
    decreases |acts|
  {
    if acts == [] then s else Run(c, Step(c, s, acts[0]), acts[1..])
  }

  lemma SupervisorKeepsInv(c: S.Config, s: State, act: S.Action)
    requires Inv(s) && S.Enabled(c, s.sup, act)
    ensures Inv(Step(c, s, Sup(act)))
  {
    SI.StepKeepsSafe(c, s.sup, act);
  }

  lemma PagerKeepsInv(c: S.Config, s: State, a: Action)
    requires Inv(s) && !a.Sup? && Enabled(c, s, a)
    ensures Inv(Step(c, s, a))
  {
  }

  lemma {:induction false} RunKeepsInv(c: S.Config, s: State, acts: seq<Action>)
    requires Inv(s) && CanRun(c, s, acts)
    ensures Inv(Run(c, s, acts))
    ensures s.eof ==> Run(c, s, acts).eof
    ensures s.eof && s.sup.core.published ==> Run(c, s, acts).sup.core.published
    ensures s.sup.core.published ==> Run(c, s, acts).files == s.files
    decreases |acts|
  {
    if acts != [] {
      var a := acts[0];
      if a.Sup? {
        SupervisorKeepsInv(c, s, a.act);
        SI.StepKeepsSafe(c, s.sup, a.act);
      } else {
        PagerKeepsInv(c, s, a);
      }
      RunKeepsInv(c, Step(c, s, a), acts[1..]);
    }
  }

  /** Interleaved with any appends and any supervisor steps, what a client has collected is
      exactly the prefix of the file that ends at its offset. */
  lemma CollectedIsPrefix(c: S.Config, sup: S.State, n: nat, k: nat, acts: seq<Action>)
    requires S.IsInit(sup) && k < n && CanRun(c, Init(sup, n, k), acts)
    ensures var s := Run(c, Init(sup, n, k), acts);
            && s.k < |s.files| && s.offset <= |s.files[s.k]|
            && s.collected == s.files[s.k][..s.offset]
  {
    SI.InitSafe(sup);
    RunKeepsInv(c, Init(sup, n, k), acts);
  }

  lemma EofIsComplete(s: State)
    requires Inv(s) && s.eof && (s.sup.core.published || !s.sup.core.errored)
    ensures s.sup.core.published && s.collected == s.files[s.k]
  {
  }

  /** If run_task published its terminal status, `eof` means the complete and final output: the
      collected bytes are the whole file, now and after any continuation. */
  lemma EofIsFinal(c: S.Config, sup: S.State, n: nat, k: nat, acts: seq<Action>, more: seq<Action>)
    requires S.IsInit(sup) && k < n && CanRun(c, Init(sup, n, k), acts)
    requires CanRun(c, Run(c, Init(sup, n, k), acts), more)
    requires var s := Run(c, Init(sup, n, k), acts); s.eof && (s.sup.core.published || !s.sup.core.errored)
    ensures var s := Run(c, Init(sup, n, k), acts);
            var later := Run(c, s, more);
            && s.k < |s.files| && s.collected == s.files[s.k]
            && later.files == s.files
  {
    var s := Run(c, Init(sup, n, k), acts);
    SI.InitSafe(sup);
    RunKeepsInv(c, Init(sup, n, k), acts);
    EofIsComplete(s);
    RunKeepsInv(c, s, more);
  }

  // ---- When `eof` is final ----

  /** What the client has collected is the whole file, whatever happens next. */
  ghost predicate StaysComplete(c: S.Config, s: State) {
    forall more :: CanRun(c, s, more) ==> s.k < |Run(c, s, more).files| && Run(c, s, more).files[s.k] == s.collected
  }

  lemma EndKeepsEnvironment(c: S.Config, sup: S.State, act: S.Action)
    requires SI.AtEnd(SI.Target(sup.pc)) && (sup.pc.Persisting? ==> !sup.pc.next.Persisting?)
    requires !S.IsEnvironment(act) && S.SupervisorEnabled(c, sup, act)
    ensures S.ApplySupervisor(c, sup, act).env == sup.env
  {
  }

  lemma EnvironmentKeepsClosed(env: S.Env, act: S.Action, k: nat)
    requires S.IsEnvironment(act) && S.EnvironmentEnabled(env, act) && !CanWrite(env, k)
    ensures !CanWrite(S.ApplyEnvironment(env, act), k)
  {
  }

  /** On a terminal task a reader that cannot receive bytes never will. */
  lemma NoLateWriter(c: S.Config, sup: S.State, act: S.Action, k: nat)
    requires SI.Safe(sup) && IsFinished(sup.core.snap.status) && S.Enabled(c, sup, act) && !CanWrite(sup.env, k)
    ensures !CanWrite(S.Apply(c, sup, act).env, k)
  {
    if S.IsEnvironment(act) {
      EnvironmentKeepsClosed(sup.env, act, k);
    } else {
      SI.PollingIsSafe(sup);
      EndKeepsEnvironment(c, sup, act);
    }
  }

  /** A terminal task whose file nobody writes any more. */
  predicate Quiet(s: State) {
    Inv(s) && IsFinished(s.sup.core.snap.status) && !CanWrite(s.sup.env, s.k)
  }

  /** The file of the client, and how it is read, stay as they are. */
  predicate SameFile(s: State, s': State) {
    && s.k < |s.files| && s'.k == s.k && |s'.files| == |s.files| && s'.files[s.k] == s.files[s.k]
    && s'.sup.core.snap.encoding == s.sup.core.snap.encoding
  }

  lemma QuietStep(c: S.Config, s: State, a: Action)
    requires Quiet(s) && Enabled(c, s, a)
    ensures Quiet(Step(c, s, a)) && SameFile(s, Step(c, s, a))
  {
    if a.Sup? {
      NoLateWriter(c, s.sup, a.act, s.k);
      SupervisorKeepsInv(c, s, a.act);
      SI.StepKeepsSafe(c, s.sup, a.act);
    } else {
      PagerKeepsInv(c, s, a);
    }
  }

  lemma {:induction false} FileIsFixed(c: S.Config, s: State, more: seq<Action>)
    requires Quiet(s) && CanRun(c, s, more)
    ensures SameFile(s, Run(c, s, more))
    decreases |more|
  {
    if more != [] {
      QuietStep(c, s, more[0]);
      FileIsFixed(c, Step(c, s, more[0]), more[1..]);
    }
  }

  lemma LateByte(c: S.Config, s: State)
    requires Inv(s) && CanWrite(s.sup.env, s.k)
    ensures !StaysComplete(c, s)
  {
    var file := s.files[s.k];
    var more := [Append(s.k, [7])];
    var s' := Step(c, s, more[0]);
    assert more[1..] == [] && CanRun(c, s', []);
    assert CanRun(c, s, more) && Run(c, s, more) == s';
    assert |s.collected| <= |file| < |s'.files[s.k]|;
  }

  /** In any reachable state in which the client was told `eof`, also after supervisor errors:
      it has the complete and final output if and only if it stands at the end of the file and
      nobody can write to that file any more. */
  lemma EofIsFinalIff(c: S.Config, sup: S.State, n: nat, k: nat, acts: seq<Action>)
    requires S.IsInit(sup) && k < n && CanRun(c, Init(sup, n, k), acts) && Run(c, Init(sup, n, k), acts).eof
    ensures var s := Run(c, Init(sup, n, k), acts);
            StaysComplete(c, s) <==> s.k < |s.files| && s.offset == |s.files[s.k]| && !CanWrite(s.sup.env, s.k)
  {
    var s := Run(c, Init(sup, n, k), acts);
    SI.InitSafe(sup);
    RunKeepsInv(c, Init(sup, n, k), acts);
    if CanWrite(s.sup.env, s.k) {
      LateByte(c, s);
    } else if s.offset == |s.files[s.k]| {
      forall more | CanRun(c, s, more)
        ensures s.k < |Run(c, s, more).files| && Run(c, s, more).files[s.k] == s.collected
      {
        FileIsFixed(c, s, more);
      }
    } else {
      assert CanRun(c, s, []) && Run(c, s, []) == s;
      assert |s.collected| == s.offset;
    }
  }

  // ---- When `eof` comes ----

  lemma {:induction false} Concat(c: S.Config, s: State, first: seq<Action>, rest: seq<Action>)
    requires CanRun(c, s, first) && CanRun(c, Run(c, s, first), rest)
    ensures CanRun(c, s, first + rest) && Run(c, s, first + rest) == Run(c, Run(c, s, first), rest)
    decreases |first|
  {
    if first == [] {
      assert first + rest == rest;
    } else {
      Concat(c, Step(c, s, first[0]), first[1..], rest);
      assert (first + rest)[1..] == first[1..] + rest;
    }
  }

  lemma WholeMin(encoding: OutputEncoding, a: nat, b: nat)
    ensures Whole(encoding, Min(a, b)) == Min(Whole(encoding, a), Whole(encoding, b))
  {
  }

  lemma HalfRest(n: nat, q: int)
    ensures (n - 2 * q) / 2 == n / 2 - q
  {
  }

  lemma WholeRest(encoding: OutputEncoding, n: nat, limit: nat)
    requires Whole(encoding, limit) <= n
    ensures Whole(encoding, n - Whole(encoding, limit)) == Whole(encoding, n) - Whole(encoding, limit)
  {
    HalfRest(n, limit / 2);
  }

  /** One call, of two steps. */
  lemma OneCall(c: S.Config, s: State, limit: nat) returns (acts: seq<Action>)
    requires 1 <= limit <= MAX_LIMIT && s.k < |s.files| && s.offset <= |s.files[s.k]|
    ensures CanRun(c, s, acts)
    ensures var chunk := ChunkAt(IsFinished(s.sup.core.snap.status), s.sup.core.snap.encoding, s.files[s.k], s.offset, limit);
            Run(c, s, acts) == s.(status := None, offset := chunk.nextOffset, collected := s.collected + chunk.data,
                                  eof := s.eof || chunk.eof)
  {
    acts := [ReadStatus, ReadFile(limit)];
    var s1 := Step(c, s, ReadStatus);
    var s2 := Step(c, s1, ReadFile(limit));
    assert acts[1..] == [ReadFile(limit)] && acts[1..][1..] == [];
    assert CanRun(c, s2, []);
    assert CanRun(c, s1, acts[1..]) && Run(c, s1, acts[1..]) == s2;
  }

  /** The rest of the file, in whole code units. */
  predicate WholeRestLeft(s: State) {
    s.k < |s.files| && s.offset <= |s.files[s.k]|
    && Whole(s.sup.core.snap.encoding, |s.files[s.k]| - s.offset) == |s.files[s.k]| - s.offset
  }

  lemma {:induction false} EofCanCome(c: S.Config, s: State) returns (acts: seq<Action>)
    requires IsFinished(s.sup.core.snap.status) && WholeRestLeft(s)
    ensures CanRun(c, s, acts) && Run(c, s, acts).eof && Run(c, s, acts).files == s.files
    decreases if WholeRestLeft(s) then |s.files[s.k]| - s.offset else 0
  {
    var encoding, rest := s.sup.core.snap.encoding, |s.files[s.k]| - s.offset;
    acts := OneCall(c, s, 2);
    var s1 := Run(c, s, acts);
    if !s1.eof {
      WholeMin(encoding, 2, rest);
      WholeRest(encoding, rest, Min(2, rest));
      var more := EofCanCome(c, s1);
      Concat(c, s, acts, more);
      acts := acts + more;
    }
  }

  lemma OddReadKeepsOdd(c: S.Config, s: State, limit: nat)
    requires Enabled(c, s, ReadFile(limit)) && !s.eof && !WholeRestLeft(s)
    ensures !Step(c, s, ReadFile(limit)).eof && !WholeRestLeft(Step(c, s, ReadFile(limit)))
  {
    var encoding, rest := s.sup.core.snap.encoding, |s.files[s.k]| - s.offset;
    WholeMin(encoding, limit, rest);
    WholeRest(encoding, rest, Min(limit, rest));
  }

  lemma OddStepKeepsOdd(c: S.Config, s: State, a: Action)
    requires Enabled(c, s, a) && SameFile(s, Step(c, s, a)) && !s.eof && !WholeRestLeft(s)
    ensures !Step(c, s, a).eof && !WholeRestLeft(Step(c, s, a))
  {
    if a.ReadFile? { OddReadKeepsOdd(c, s, a.limit); }
  }

  lemma {:induction false} OddNeverEnds(c: S.Config, s: State, more: seq<Action>)
    requires Quiet(s) && CanRun(c, s, more) && !s.eof && !WholeRestLeft(s)
    ensures !Run(c, s, more).eof
    decreases |more|
  {
    if more != [] {
      QuietStep(c, s, more[0]);
      OddStepKeepsOdd(c, s, more[0]);
      OddNeverEnds(c, Step(c, s, more[0]), more[1..]);
    }
  }

  ghost predicate EofMayCome(c: S.Config, s: State) {
    exists more :: CanRun(c, s, more) && Run(c, s, more).eof
  }

  /** On a terminal task whose file nobody writes any more, a client that has not been told `eof` can
      still be told so if and only if what is left for it is whole code units. */
  lemma EofComesIff(c: S.Config, sup: S.State, n: nat, k: nat, acts: seq<Action>)
    requires S.IsInit(sup) && k < n && CanRun(c, Init(sup, n, k), acts)
    requires var s := Run(c, Init(sup, n, k), acts);
             !s.eof && IsFinished(s.sup.core.snap.status) && !CanWrite(s.sup.env, s.k)
    ensures var s := Run(c, Init(sup, n, k), acts); EofMayCome(c, s) <==> WholeRestLeft(s)
  {
    var s := Run(c, Init(sup, n, k), acts);
    SI.InitSafe(sup);
    RunKeepsInv(c, Init(sup, n, k), acts);
    if WholeRestLeft(s) {
      var more := EofCanCome(c, s);
      assert CanRun(c, s, more) && Run(c, s, more).eof;
    } else {
      forall more | CanRun(c, s, more) ensures !Run(c, s, more).eof {
        OddNeverEnds(c, s, more);
      }
    }
  }

  // ---- An early `eof` ----

  /** A run of the supervisor as a run beside an idle client. */
  lemma {:induction false} Lifted(c: S.Config, s: State, acts: seq<S.Action>) returns (lifted: seq<Action>)
    requires S.CanRun(c, s.sup, acts)
    ensures CanRun(c, s, lifted) && Run(c, s, lifted) == s.(sup := S.Run(c, s.sup, acts))
    decreases |acts|
  {
    lifted := [];
    if acts != [] {
      var rest := Lifted(c, Step(c, s, Sup(acts[0])), acts[1..]);
      lifted := [Sup(acts[0])] + rest;
      assert lifted[1..] == rest;
    }
  }

  /** It may not be final: when the first persist of run_task fails, the worker is running and
      nobody joins its readers, so a client is told `eof` while bytes are still to come. */
  lemma EofCanBeEarly(snap: TaskSnapshot) returns (acts: seq<Action>)
    requires IsFresh(snap)
    ensures S.IsInit(S.Init(snap, None)) && CanRun(R.ONE_READER, Init(S.Init(snap, None), 1, 0), acts)
    ensures var s := Run(R.ONE_READER, Init(S.Init(snap, None), 1, 0), acts);
            && s.eof && s.sup.core.errored && s.collected == []
            && CanWrite(s.sup.env, 0) && !StaysComplete(R.ONE_READER, s)
  {
    var supActs, sup := R.FailsWhileReading(snap);
    var s0 := Init(S.Init(snap, None), 1, 0);
    assert s0.files == [[]];
    var before := Lifted(R.ONE_READER, s0, supActs);
    var call := OneCall(R.ONE_READER, s0.(sup := sup), 1);
    Concat(R.ONE_READER, s0, before, call);
    acts := before + call;
    EofIsFinalIff(R.ONE_READER, S.Init(snap, None), 1, 0, acts);
  }

  // ---- A chain of calls on a finished task ----

  /** The offset after calls with the given limits. */
  function Advance(encoding: OutputEncoding, offset: nat, limits: seq<nat>, size: nat): (next: nat)
    requires offset <= size
    ensures offset <= next <= size
    decreases |limits|
  {
    if limits == [] then offset
    else Advance(encoding, offset + ReadLength(encoding, offset, limits[0], size), limits[1..], size)
  }

  /** The bytes that a chain of calls may deliver at most, limit by limit. */
  function Total(encoding: OutputEncoding, limits: seq<nat>): nat {
    if limits == [] then 0 else Whole(encoding, limits[0]) + Total(encoding, limits[1..])
  }

  /** From any offset, with any limits, a chain of calls on a finished file stands exactly where
      its limits, rounded down to whole code units, carry it, or at the last whole code unit. */
  lemma {:induction false} PagingIsExact(encoding: OutputEncoding, offset: nat, limits: seq<nat>, size: nat)
    requires offset <= size
    ensures Advance(encoding, offset, limits, size) == offset + Min(Total(encoding, limits), Whole(encoding, size - offset))
    decreases |limits|
  {
    if limits != [] {
      var n := ReadLength(encoding, offset, limits[0], size);
      WholeMin(encoding, limits[0], size - offset);
      WholeRest(encoding, size - offset, Min(limits[0], size - offset));
      PagingIsExact(encoding, offset + n, limits[1..], size);
    }
  }

  /** The end is reached if and only if the rest of the file is whole code units and the limits
      cover it; so a UTF-16 client never sees the end of a rest of odd size. */
  lemma EndReachedIff(encoding: OutputEncoding, offset: nat, limits: seq<nat>, size: nat)
    requires offset <= size
    ensures Advance(encoding, offset, limits, size) == size <==>
            Whole(encoding, size - offset) == size - offset <= Total(encoding, limits)
  {
    PagingIsExact(encoding, offset, limits, size);
  }

  predicate LimitsAtLeast(limits: seq<nat>, low: nat) {
    forall i :: 0 <= i < |limits| ==> low <= limits[i]
  }

  lemma {:induction false} TotalAtLeast(encoding: OutputEncoding, limits: seq<nat>)
    requires LimitsAtLeast(limits, if encoding.Utf16le? then 2 else 1)
    ensures |limits| <= Total(encoding, limits)
  {
    if limits != [] {
      TotalAtLeast(encoding, limits[1..]);
    }
  }

  /** Enough calls, with limits of one code unit or more, reach the last whole code unit. */
  lemma PagingReachesEnd(encoding: OutputEncoding, offset: nat, limits: seq<nat>, size: nat)
    requires offset <= size && size - offset <= |limits| && LimitsAtLeast(limits, if encoding.Utf16le? then 2 else 1)
    ensures Advance(encoding, offset, limits, size) == offset + Whole(encoding, size - offset)
  {
    TotalAtLeast(encoding, limits);
    PagingIsExact(encoding, offset, limits, size);
  }

  /** Limits below one code unit never advance. */
  lemma {:induction false} TotalOfUnits(limits: seq<nat>)
    ensures Total(Utf16le, limits) == 0 <==> forall i :: 0 <= i < |limits| ==> limits[i] <= 1
  {
    if limits != [] {
      TotalOfUnits(limits[1..]);
      assert forall i :: 1 <= i < |limits| ==> limits[1..][i - 1] == limits[i];
    }
  }

  /** A UTF-16 client with at least one code unit to read stands still exactly when all its
      limits are below two bytes. */
  lemma StandsStillIff(offset: nat, limits: seq<nat>, size: nat)
    requires offset + 2 <= size
    ensures Advance(Utf16le, offset, limits, size) == offset <==> forall i :: 0 <= i < |limits| ==> limits[i] <= 1
  {
    PagingIsExact(Utf16le, offset, limits, size);
    TotalOfUnits(limits);
  }

  /** The calls of a client with the given legal limits, from any offset within the file. */
  method FetchChain(task: TaskSnapshot, stream: OutputStream, file: seq<Byte>, offset: nat, limits: seq<nat>)
    returns (data: seq<Byte>, next: nat, eof: bool)
    requires IsFinished(task.status) && StreamExists(task.outputMode, stream) && offset <= |file|
    requires forall i :: 0 <= i < |limits| ==> 1 <= limits[i] <= MAX_LIMIT
    ensures next == offset + Min(Total(task.encoding, limits), Whole(task.encoding, |file| - offset))
    ensures data == file[offset..next]
    ensures eof <==> limits != [] && next == |file|
  {
    data, next, eof := [], offset, false;
    for i := 0 to |limits|
      invariant offset <= next <= |file| && data == file[offset..next]
      invariant Advance(task.encoding, next, limits[i..], |file|) == Advance(task.encoding, offset, limits, |file|)
      invariant eof <==> i > 0 && next == |file|
    {
      var r := OutputChunk(Some(task), stream, Some(file), next, limits[i]);
      assert limits[i..][1..] == limits[i + 1..];
      data, next, eof := data + r.chunk.data, r.chunk.nextOffset, r.chunk.eof;
    }
    PagingIsExact(task.encoding, offset, limits, |file|);
  }

  /** A client that pages a finished task from offset 0 with limits of its choice until `eof` or
      an empty chunk. */
  method FetchAll(task: TaskSnapshot, stream: OutputStream, file: seq<Byte>) returns (data: seq<Byte>, eof: bool)
    requires IsFinished(task.status) && StreamExists(task.outputMode, stream)
    ensures data <= file
    ensures !task.encoding.Utf16le? ==> data == file
    ensures task.encoding.Utf16le? ==> |data| == |file| - |file| % 2
    ensures eof <==> !task.encoding.Utf16le? || |file| % 2 == 0
  {
    data, eof := [], false;
    var more := true;
    while more
      invariant data <= file && !(more && eof)
      invariant task.encoding.Utf16le? ==> |data| % 2 == 0
      invariant eof ==> |data| == |file|
      invariant !more && !eof ==> task.encoding.Utf16le? && |data| + 1 == |file|
      decreases more, |file| - |data|
    {
      var limit: nat :| (if task.encoding.Utf16le? then 2 else 1) <= limit <= MAX_LIMIT by { assert 2 <= MAX_LIMIT; }
      var r := OutputChunk(Some(task), stream, Some(file), |data|, limit);
      assert r.Page?;
      data := data + r.chunk.data;
      eof := r.chunk.eof;
      more := !eof && |r.chunk.data| > 0;
    }
  }
}
