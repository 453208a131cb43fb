/** Output capture (src/process/mod.rs, `copy_output`): reader threads that share one byte
    budget through `captured_bytes.fetch_add` while each appends to its own file.

    Every atomic operation and every file append of the loop is a step; readers interleave
    freely. `captured_bytes` wraps at 2^64 as AtomicU64 does. */
module OutputCapture {
  import opened TaskModel

  const BUFFER: nat := 8192

  datatype ReaderPc =
    | Reading
    | Fetched(chunk: seq<Byte>)
    | Reserved(chunk: seq<Byte>, allowed: nat)
    | Written(chunk: seq<Byte>, allowed: nat)
    | Counted(chunk: seq<Byte>, allowed: nat)
    | Ended
    | Broken(lost: nat)   // an I/O error; `lost` reserved bytes never reached the file

  /** `input` is everything read from the pipe so far. */
  datatype Reader = Reader(pc: ReaderPc, input: seq<Byte>, file: seq<Byte>, counter: nat)

  datatype Capture = Capture(limit: nat, captured: nat, truncated: bool, readers: seq<Reader>)

  datatype Action =
    | Read(chunk: seq<Byte>)
    | Eof
    | ReadFails
    | Reserve            // fetch_add on captured_bytes
    | Write
    | WriteFails(kept: nat)
    | Count              // fetch_add on the counter of the stream
    | Note               // store to output_truncated, or nothing

  function Min(a: nat, b: nat): nat { if a < b then a else b }

  /** `limit.saturating_sub(already).min(read)` */
  function Allowed(limit: nat, already: nat, n: nat): nat {
    Min(if limit < already then 0 else limit - already, n)
  }

  predicate Enabled(s: Capture, i: nat, a: Action) {
    && i < |s.readers|
    && var r := s.readers[i];
    match a
    case Read(chunk) => r.pc.Reading? && 0 < |chunk| <= BUFFER
    case Eof => r.pc.Reading?
    case ReadFails => r.pc.Reading?
    case Reserve => r.pc.Fetched?
    case Write => r.pc.Reserved?
    case WriteFails(kept) => r.pc.Reserved? && kept < r.pc.allowed <= |r.pc.chunk|
    case Count => r.pc.Written?
    case Note => r.pc.Counted?
  }

  function StepReader(s: Capture, r: Reader, a: Action): Reader {
    match a
    case Read(chunk) => r.(pc := Fetched(chunk), input := r.input + chunk)
    case Eof => r.(pc := Ended)
    case ReadFails => r.(pc := Broken(0))
    case Reserve =>
      if r.pc.Fetched? then r.(pc := Reserved(r.pc.chunk, Allowed(s.limit, s.captured, |r.pc.chunk|))) else r
    case Write =>
      if r.pc.Reserved? && r.pc.allowed <= |r.pc.chunk|
      then r.(pc := Written(r.pc.chunk, r.pc.allowed), file := r.file + r.pc.chunk[..r.pc.allowed]) else r
    case WriteFails(kept) =>
      if r.pc.Reserved? && kept <= r.pc.allowed && kept <= |r.pc.chunk|
      then r.(pc := Broken(r.pc.allowed - kept), file := r.file + r.pc.chunk[..kept]) else r
    case Count =>
      if r.pc.Written? then r.(pc := Counted(r.pc.chunk, r.pc.allowed), counter := r.counter + r.pc.allowed) else r
    case Note => r.(pc := Reading)
  }

  function Step(s: Capture, i: nat, a: Action): Capture
    requires Enabled(s, i, a)
  {
    var r := s.readers[i];
    var stepped := s.(readers := s.readers[i := StepReader(s, r, a)]);
    match a
    case Reserve => stepped.(captured := (s.captured + |r.pc.chunk|) % U64_SPAN)
    case Note => if r.pc.allowed < |r.pc.chunk| then stepped.(truncated := true) else stepped
    case _ => stepped
  }

  function InitReader(): Reader { Reader(Reading, [], [], 0) }

  function Init(limit: nat, n: nat): Capture {
    Capture(limit, 0, false, seq(n, _ => InitReader()))
  }

  // ---- Sums over readers ----

  function Sum(rs: seq<Reader>, f: Reader -> nat): nat {
    if rs == [] then 0 else f(rs[0]) + Sum(rs[1..], f)
  }

  lemma {:induction false} SumUpdate(rs: seq<Reader>, i: nat, r: Reader, f: Reader -> nat)
    requires i < |rs|
    ensures Sum(rs[i := r], f) + f(rs[i]) == Sum(rs, f) + f(r)
  {
    if i == 0 {
      assert rs[i := r][1..] == rs[1..];
    } else {
      SumUpdate(rs[1..], i - 1, r, f);
      assert rs[i := r][1..] == rs[1..][i - 1 := r];
    }
  }

  lemma {:induction false} SumPointwise(rs: seq<Reader>, f: Reader -> nat, g: Reader -> nat)
    requires forall i :: 0 <= i < |rs| ==> f(rs[i]) <= g(rs[i])
    ensures Sum(rs, f) <= Sum(rs, g)
    ensures (exists i :: 0 <= i < |rs| && f(rs[i]) < g(rs[i])) ==> Sum(rs, f) < Sum(rs, g)
  {
    if rs != [] {
      SumPointwise(rs[1..], f, g);
      if i :| 0 <= i < |rs| && f(rs[i]) < g(rs[i]) {
        if i > 0 { assert rs[1..][i - 1] == rs[i]; }
      }
    }
  }

  function InputSize(r: Reader): nat { |r.input| }
  function FileSize(r: Reader): nat { |r.file| }

  /** Bytes of this reader that have passed `fetch_add`. */
  function ReservedSize(r: Reader): nat {
    if r.pc.Fetched? && |r.pc.chunk| <= |r.input| then |r.input| - |r.pc.chunk| else |r.input|
  }

  /** Budget granted to this reader: in its file, about to be written, or lost to an error. */
  function Granted(r: Reader): nat {
    |r.file| + (if r.pc.Reserved? then r.pc.allowed else if r.pc.Broken? then r.pc.lost else 0)
  }

  function TotalInput(s: Capture): nat { Sum(s.readers, InputSize) }
  function TotalFiles(s: Capture): nat { Sum(s.readers, FileSize) }

  // ---- The invariant ----

  /** This reader still has to note a truncation. */
  predicate Short(r: Reader) {
    (r.pc.Reserved? || r.pc.Written? || r.pc.Counted?) && r.pc.allowed < |r.pc.chunk|
  }

  predicate ReaderOk(s: Capture, r: Reader) {
    && r.file <= r.input
    && Granted(r) <= ReservedSize(r)
    && (Granted(r) == ReservedSize(r) || s.limit <= s.captured)
    && (Short(r) ==> Granted(r) < ReservedSize(r))
    && match r.pc
       case Fetched(chunk) =>
         && 0 < |chunk| <= |r.input| && r.input[|r.input| - |chunk|..] == chunk && r.counter == |r.file|
         && |r.file| <= |r.input| - |chunk|
       case Reserved(chunk, allowed) =>
         && |chunk| <= |r.input| && r.input[|r.input| - |chunk|..] == chunk && r.counter == |r.file|
         && allowed <= |chunk| && (allowed > 0 ==> |r.file| == |r.input| - |chunk|)
       case Written(chunk, allowed) => allowed <= |chunk| && r.counter + allowed == |r.file|
       case Counted(chunk, allowed) => allowed <= |chunk| && r.counter == |r.file|
       case Broken(_) => r.counter <= |r.file|
       case _ => r.counter == |r.file|
  }

  predicate Inv(s: Capture) {
    && (forall i :: 0 <= i < |s.readers| ==> ReaderOk(s, s.readers[i]))
    && s.captured == Sum(s.readers, ReservedSize)
    && Sum(s.readers, Granted) == Min(s.limit, s.captured)
    && (s.truncated ==> s.limit < s.captured)
    && (s.limit < s.captured ==> s.truncated || exists i :: 0 <= i < |s.readers| && Unnoted(s.readers[i]))
  }

  lemma {:induction false} InitSums(n: nat, f: Reader -> nat)
    requires f(InitReader()) == 0
    ensures Sum(seq(n, _ => InitReader()), f) == 0
  {
    if n > 0 {
      assert seq(n, _ => InitReader())[1..] == seq(n - 1, _ => InitReader());
      InitSums(n - 1, f);
    }
  }

  lemma InitInv(limit: nat, n: nat)
    ensures Inv(Init(limit, n)) && TotalInput(Init(limit, n)) == 0
  {
    InitSums(n, ReservedSize);
    InitSums(n, Granted);
    InitSums(n, InputSize);
  }

  lemma WriteKeepsReader(s: Capture, r: Reader, a: Action)
    requires ReaderOk(s, r) && r.pc.Reserved? && (a.Write? || (a.WriteFails? && a.kept < r.pc.allowed))
    ensures ReaderOk(s, StepReader(s, r, a))
  {
    var n := if a.Write? then r.pc.allowed else a.kept;
    if n > 0 {
      assert r.input[..|r.file| + n] == r.input[..|r.file|] + r.pc.chunk[..n];
    }
  }

  lemma CountKeepsReader(s: Capture, r: Reader, a: Action)
    requires ReaderOk(s, r) && ((a.Count? && r.pc.Written?) || (a.Note? && r.pc.Counted?))
    ensures ReaderOk(s, StepReader(s, r, a))
  {
  }

  lemma TransferKeepsReader(s: Capture, i: nat, a: Action)
    requires Inv(s) && Enabled(s, i, a) && (a.Write? || a.WriteFails? || a.Count? || a.Note?)
    ensures ReaderOk(Step(s, i, a), Step(s, i, a).readers[i])
  {
    var r := s.readers[i];
    assert ReaderOk(s, r);
    if a.Write? || a.WriteFails? { WriteKeepsReader(s, r, a); } else { CountKeepsReader(s, r, a); }
    assert ReaderOk(s, StepReader(s, r, a));
  }

  lemma IntakeKeepsReader(s: Capture, i: nat, a: Action)
    requires Inv(s) && Enabled(s, i, a) && (a.Read? || a.Eof? || a.ReadFails? || a.Reserve?)
    requires a.Reserve? ==> s.captured + |s.readers[i].pc.chunk| < U64_SPAN
    ensures ReaderOk(Step(s, i, a), Step(s, i, a).readers[i])
  {
    assert ReaderOk(s, s.readers[i]);
  }

  /** What passed `fetch_add`, plus the chunk about to, is part of what was read. */
  lemma ReservedWithinInput(s: Capture, i: nat)
    requires Inv(s) && i < |s.readers| && s.readers[i].pc.Fetched?
    ensures s.captured + |s.readers[i].pc.chunk| <= TotalInput(s)
  {
    var r := s.readers[i];
    assert ReaderOk(s, r);
    var rs := s.readers[i := r.(pc := Reading)];
    SumUpdate(s.readers, i, r.(pc := Reading), ReservedSize);
    SumUpdate(s.readers, i, r.(pc := Reading), InputSize);
    SumPointwise(rs, ReservedSize, InputSize);
  }

  /** How one step changes the sizes of the reader that takes it. */
  lemma StepDelta(s: Capture, i: nat, a: Action)
    requires Inv(s) && Enabled(s, i, a)
    ensures var r := s.readers[i];
            var r' := StepReader(s, r, a);
            var n := if a.Reserve? then |r.pc.chunk| else 0;
            && ReservedSize(r') == ReservedSize(r) + n
            && Granted(r') == Granted(r) + Allowed(s.limit, s.captured, n)
            && InputSize(r) <= InputSize(r')
  {
    assert ReaderOk(s, s.readers[i]);
  }

  lemma StepSums(s: Capture, i: nat, a: Action)
    requires Inv(s) && Enabled(s, i, a) && TotalInput(s) < U64_SPAN
    ensures var s' := Step(s, i, a);
            && s'.captured == Sum(s'.readers, ReservedSize) && s.captured <= s'.captured
            && s'.captured == s.captured + (if a.Reserve? then |s.readers[i].pc.chunk| else 0)
            && Sum(s'.readers, Granted) == Min(s'.limit, s'.captured)
            && TotalInput(s) <= TotalInput(s')
  {
    var r' := StepReader(s, s.readers[i], a);
    StepDelta(s, i, a);
    SumUpdate(s.readers, i, r', ReservedSize);
    SumUpdate(s.readers, i, r', Granted);
    SumUpdate(s.readers, i, r', InputSize);
    if a.Reserve? {
      ReservedWithinInput(s, i);
    }
  }

  predicate Unnoted(r: Reader) {
    Short(r) || r.pc.Broken?
  }

  lemma StepUnnoted(s: Capture, i: nat, a: Action)
    requires Inv(s) && Enabled(s, i, a)
    ensures Unnoted(s.readers[i]) && !a.Note? ==> Unnoted(Step(s, i, a).readers[i])
    ensures a.Reserve? && s.limit < s.captured + |s.readers[i].pc.chunk| ==> Unnoted(Step(s, i, a).readers[i])
  {
    assert ReaderOk(s, s.readers[i]);
  }

  lemma StepTruncation(s: Capture, i: nat, a: Action)
    requires Inv(s) && Enabled(s, i, a) && TotalInput(s) < U64_SPAN
    ensures var s' := Step(s, i, a);
            && (s'.truncated ==> s'.limit < s'.captured)
            && (s'.limit < s'.captured ==> s'.truncated || exists j :: 0 <= j < |s'.readers| && Unnoted(s'.readers[j]))
  {
    var s' := Step(s, i, a);
    assert ReaderOk(s, s.readers[i]);
    StepSums(s, i, a);
    StepUnnoted(s, i, a);
    if a.Note? && Short(s.readers[i]) {
      ShortMeansOver(s, i);
    } else if s'.limit < s'.captured && !s'.truncated {
      if s.limit < s.captured {
        var j :| 0 <= j < |s.readers| && Unnoted(s.readers[j]);
        assert Unnoted(s'.readers[j]);
      } else {
        assert Unnoted(s'.readers[i]);
      }
    }
  }

  /** A reader that was granted less than it read has exhausted the budget. */
  lemma ShortMeansOver(s: Capture, i: nat)
    requires Inv(s) && i < |s.readers| && Granted(s.readers[i]) < ReservedSize(s.readers[i])
    ensures s.limit < s.captured
  {
    forall j | 0 <= j < |s.readers| ensures Granted(s.readers[j]) <= ReservedSize(s.readers[j]) {
      assert ReaderOk(s, s.readers[j]);
    }
    SumPointwise(s.readers, Granted, ReservedSize);
  }

  lemma StepKeepsInv(s: Capture, i: nat, a: Action)
    requires Inv(s) && Enabled(s, i, a) && TotalInput(s) < U64_SPAN
    ensures Inv(Step(s, i, a)) && TotalInput(s) <= TotalInput(Step(s, i, a))
  {
    var s' := Step(s, i, a);
    StepSums(s, i, a);
    StepTruncation(s, i, a);
    if a.Reserve? {
      ReservedWithinInput(s, i);
    }
    if a.Write? || a.WriteFails? || a.Count? || a.Note? { TransferKeepsReader(s, i, a); } else { IntakeKeepsReader(s, i, a); }
    forall j | 0 <= j < |s'.readers| ensures ReaderOk(s', s'.readers[j]) {
      if j != i {
        assert ReaderOk(s, s.readers[j]);
      }
    }
  }

  // ---- Every interleaving ----

  predicate CanRun(s: Capture, acts: seq<(nat, Action)>)
    decreases |acts|
  {
    acts == [] || (Enabled(s, acts[0].0, acts[0].1) && CanRun(Step(s, acts[0].0, acts[0].1), acts[1..]))
  }

  function Run(s: Capture, acts: seq<(nat, Action)>): Capture
    requires CanRun(s, acts)
    decreases |acts|
  {
    if acts == [] then s else Run(Step(s, acts[0].0, acts[0].1), acts[1..])
  }

  lemma {:induction false} InputGrows(s: Capture, acts: seq<(nat, Action)>)
    requires CanRun(s, acts)
    ensures TotalInput(s) <= TotalInput(Run(s, acts)) && |Run(s, acts).readers| == |s.readers|
    ensures Run(s, acts).limit == s.limit
    decreases |acts|
  {
    if acts != [] {
      var (i, a) := acts[0];
      SumUpdate(s.readers, i, StepReader(s, s.readers[i], a), InputSize);
      InputGrows(Step(s, i, a), acts[1..]);
    }
  }

  lemma {:induction false} RunKeepsInv(s: Capture, acts: seq<(nat, Action)>)
    requires Inv(s) && CanRun(s, acts) && TotalInput(Run(s, acts)) < U64_SPAN
    ensures Inv(Run(s, acts))
    decreases |acts|
  {
    if acts != [] {
      var (i, a) := acts[0];
      InputGrows(s, acts);
      StepKeepsInv(s, i, a);
      RunKeepsInv(Step(s, i, a), acts[1..]);
    }
  }

  /** At every moment, also after I/O errors: each file is a prefix of its stream, and the
      files together stay within the budget and within what was accounted for. */
  lemma FilesStayWithinBudget(limit: nat, n: nat, acts: seq<(nat, Action)>)
    requires CanRun(Init(limit, n), acts) && TotalInput(Run(Init(limit, n), acts)) < U64_SPAN
    ensures var s := Run(Init(limit, n), acts);
            && TotalFiles(s) <= Min(limit, s.captured)
            && (forall i :: 0 <= i < |s.readers| ==> s.readers[i].file <= s.readers[i].input)
  {
    var s := Run(Init(limit, n), acts);
    InitInv(limit, n);
    InputGrows(Init(limit, n), acts);
    RunKeepsInv(Init(limit, n), acts);
    forall i | 0 <= i < |s.readers| ensures s.readers[i].file <= s.readers[i].input {
      assert ReaderOk(s, s.readers[i]);
    }
    SumPointwise(s.readers, FileSize, Granted);
  }

  predicate AllEnded(s: Capture) {
    forall i :: 0 <= i < |s.readers| ==> s.readers[i].pc.Ended?
  }

  /** When every reader has reached the end of its stream: the files hold exactly
      min(limit, bytes read) bytes, each counter is the length of its file, and the output is
      marked truncated exactly when more than the limit was read. */
  lemma CaptureIsExact(s: Capture)
    requires Inv(s) && AllEnded(s)
    ensures TotalFiles(s) == Min(s.limit, TotalInput(s))
    ensures forall i :: 0 <= i < |s.readers| ==>
              s.readers[i].file <= s.readers[i].input && s.readers[i].counter == |s.readers[i].file|
    ensures s.truncated <==> s.limit < TotalInput(s)
  {
    forall i | 0 <= i < |s.readers|
      ensures s.readers[i].file <= s.readers[i].input && s.readers[i].counter == |s.readers[i].file|
    {
      assert ReaderOk(s, s.readers[i]);
    }
    SumPointwise(s.readers, FileSize, Granted);
    SumPointwise(s.readers, Granted, FileSize);
    SumPointwise(s.readers, InputSize, ReservedSize);
    SumPointwise(s.readers, ReservedSize, InputSize);
  }

  /** The same for every interleaving of the reader loops. */
  lemma EveryInterleavingIsExact(limit: nat, n: nat, acts: seq<(nat, Action)>)
    requires CanRun(Init(limit, n), acts) && AllEnded(Run(Init(limit, n), acts))
    requires TotalInput(Run(Init(limit, n), acts)) < U64_SPAN
    ensures var s := Run(Init(limit, n), acts);
            && TotalFiles(s) == Min(limit, TotalInput(s))
            && (forall i :: 0 <= i < |s.readers| ==>
                  s.readers[i].file <= s.readers[i].input && s.readers[i].counter == |s.readers[i].file|)
            && (s.truncated <==> limit < TotalInput(s))
  {
    InitInv(limit, n);
    InputGrows(Init(limit, n), acts);
    RunKeepsInv(Init(limit, n), acts);
    CaptureIsExact(Run(Init(limit, n), acts));
  }

  // ---- The reader loops under an arbitrary scheduler ----

  function TotalLength(sources: seq<seq<Byte>>): nat {
    if sources == [] then 0 else |sources[0]| + TotalLength(sources[1..])
  }

  lemma {:induction false} InputWithinSources(rs: seq<Reader>, sources: seq<seq<Byte>>)
    requires Consistent(rs, sources)
    ensures Sum(rs, InputSize) <= TotalLength(sources)
    ensures (forall i :: 0 <= i < |rs| ==> rs[i].input == sources[i]) ==> Sum(rs, InputSize) == TotalLength(sources)
    decreases |rs|
  {
    if rs != [] {
      InputWithinSources(rs[1..], sources[1..]);
    }
  }

  /** Steps that a reader still has to take for the chunk in hand, and to see the end. */
  function Effort(r: Reader): nat {
    match r.pc
    case Reading => 1
    case Fetched(_) => 5
    case Reserved(_, _) => 4
    case Written(_, _) => 3
    case Counted(_, _) => 2
    case _ => 0
  }

  predicate Follows(r: Reader, source: seq<Byte>) {
    r.input <= source && !r.pc.Broken? && (r.pc.Ended? ==> r.input == source)
  }

  predicate Consistent(rs: seq<Reader>, sources: seq<seq<Byte>>) {
    |rs| == |sources| && forall i :: 0 <= i < |rs| ==> Follows(rs[i], sources[i])
  }

  function Measure(rs: seq<Reader>, total: nat): int {
    10 * (total - Sum(rs, InputSize)) + Sum(rs, Effort)
  }

  /** An operation of the loop over `source`. */
  predicate Sourced(r: Reader, source: seq<Byte>, a: Action) {
    && !a.WriteFails? && !a.ReadFails?
    && (a.Read? ==> r.input + a.chunk <= source)
    && (a.Eof? ==> r.input == source)
  }

  lemma ReaderProgresses(s: Capture, i: nat, source: seq<Byte>, a: Action)
    requires Inv(s) && Enabled(s, i, a) && Follows(s.readers[i], source) && Sourced(s.readers[i], source, a)
    ensures var r := s.readers[i];
            var r' := StepReader(s, r, a);
            Follows(r', source) && Effort(r') < Effort(r) + 10 * (|r'.input| - |r.input|)
  {
    assert ReaderOk(s, s.readers[i]);
  }

  lemma OperationProgresses(s: Capture, sources: seq<seq<Byte>>, i: nat, a: Action)
    requires Inv(s) && Consistent(s.readers, sources) && Enabled(s, i, a) && Sourced(s.readers[i], sources[i], a)
    ensures Consistent(Step(s, i, a).readers, sources)
    ensures Measure(Step(s, i, a).readers, TotalLength(sources)) < Measure(s.readers, TotalLength(sources))
  {
    var r' := StepReader(s, s.readers[i], a);
    assert Follows(s.readers[i], sources[i]);
    ReaderProgresses(s, i, sources[i], a);
    SumUpdate(s.readers, i, r', InputSize);
    SumUpdate(s.readers, i, r', Effort);
  }

  /** The next operation of the loop of a reader whose stream is `source`. */
  method NextAction(s: Capture, i: nat, source: seq<Byte>) returns (a: Action)
    requires Inv(s) && i < |s.readers| && !s.readers[i].pc.Ended? && !s.readers[i].pc.Broken?
    requires s.readers[i].input <= source
    ensures Enabled(s, i, a) && Sourced(s.readers[i], source, a)
  {
    assert ReaderOk(s, s.readers[i]);
    match s.readers[i].pc
    case Reading =>
      var k := |s.readers[i].input|;
      if k == |source| {
        a := Eof;
      } else {
        var n: nat :| 0 < n <= BUFFER && n <= |source| - k by { assert 0 < 1 <= BUFFER && 1 <= |source| - k; }
        a := Read(source[k..k + n]);
      }
    case Fetched(_) => a := Reserve;
    case Reserved(_, _) => a := Write;
    case Written(_, _) => a := Count;
    case Counted(_, _) => a := Note;
  }

  /** The loops of all readers, one operation of an arbitrary unfinished reader at a time, read
      in chunks of arbitrary size, until every stream is exhausted. */
  method CaptureStreams(limit: nat, sources: seq<seq<Byte>>) returns (s: Capture)
    requires TotalLength(sources) < U64_SPAN
    ensures |s.readers| == |sources| && s.limit == limit
    ensures forall i :: 0 <= i < |sources| ==>
              && s.readers[i].input == sources[i] && s.readers[i].file <= sources[i]
              && s.readers[i].counter == |s.readers[i].file|
    ensures TotalFiles(s) == Min(limit, TotalLength(sources))
    ensures s.truncated <==> limit < TotalLength(sources)
  {
    s := Init(limit, |sources|);
    InitInv(limit, |sources|);
    while !AllEnded(s)
      invariant s.limit == limit && Inv(s) && Consistent(s.readers, sources)
      decreases Measure(s.readers, TotalLength(sources))
    {
      var i: nat :| i < |s.readers| && !s.readers[i].pc.Ended?;
      assert Follows(s.readers[i], sources[i]);
      var a := NextAction(s, i, sources[i]);
      InputWithinSources(s.readers, sources);
      StepKeepsInv(s, i, a);
      OperationProgresses(s, sources, i, a);
      s := Step(s, i, a);
    }
    InputWithinSources(s.readers, sources);
    CaptureIsExact(s);
  }
}
