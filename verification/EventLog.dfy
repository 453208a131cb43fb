/** The event log and the task store built on it (src/store.rs: `read_latest_snapshot`,
    `recover`, `cleanup_expired`, `TaskRecord::snapshot`).

    A log is a sequence of whole lines. A directory that `remove_dir_all` cannot delete, an
    events.jsonl that cannot be opened and an append that fails are part of the model. */
module EventLog {
  import opened TaskModel
  import S = Supervisor
  import SI = SupervisorInvariant
  import R = SupervisorRuns

  // ---- Reading one log ----

  datatype LogFile = Missing | Unreadable | Lines(lines: seq<Line>)

  datatype ReadResult = Latest(snap: Option<TaskSnapshot>) | ReadFailed

  /** `snap` is the last line of `lines` that parses. */
  ghost predicate IsLatest(lines: seq<Line>, snap: Option<TaskSnapshot>) {
    match snap
    case None => forall i :: 0 <= i < |lines| ==> lines[i].Corrupt?
    case Some(x) => exists i :: LastRecordAt(lines, i, x)
  }

  ghost predicate LastRecordAt(lines: seq<Line>, i: int, snap: TaskSnapshot) {
    0 <= i < |lines| && lines[i] == Record(snap) && forall j :: i < j < |lines| ==> lines[j].Corrupt?
  }

  /** The last parsable line, found from the end. */
  function LastRecord(lines: seq<Line>): Option<TaskSnapshot> {
    if lines == [] then None
    else match lines[|lines| - 1]
      case Record(snap) => Some(snap)
      case Corrupt => LastRecord(lines[..|lines| - 1])
  }

  lemma {:induction false} LastRecordIsLatest(lines: seq<Line>)
    ensures IsLatest(lines, LastRecord(lines))
  {
    if lines != [] {
      var n := |lines| - 1;
      if lines[n].Record? {
        assert LastRecordAt(lines, n, lines[n].snap);
      } else {
        LastRecordIsLatest(lines[..n]);
        if LastRecord(lines).Some? {
          var x := LastRecord(lines).value;
          var i :| LastRecordAt(lines[..n], i, x);
          assert LastRecordAt(lines, i, x);
        }
      }
    }
  }

  /** There is only one such line. */
  lemma LatestIsUnique(lines: seq<Line>, a: Option<TaskSnapshot>, b: Option<TaskSnapshot>)
    requires IsLatest(lines, a) && IsLatest(lines, b)
    ensures a == b
  {
    if a.Some? && b.Some? {
      var i :| LastRecordAt(lines, i, a.value);
      var j :| LastRecordAt(lines, j, b.value);
      assert i == j;
    }
  }

  /** The forward scan that overwrites its result at every parsable line. */
  method ReadLatestSnapshot(file: LogFile) returns (r: ReadResult)
    ensures file.Missing? ==> r == Latest(None)
    ensures file.Unreadable? ==> r == ReadFailed
    ensures file.Lines? ==> r == Latest(LastRecord(file.lines))
  {
    match file
    case Missing => r := Latest(None);
    case Unreadable => r := ReadFailed;
    case Lines(lines) =>
      var latest: Option<TaskSnapshot> := None;
      for i := 0 to |lines|
        invariant latest == LastRecord(lines[..i])
      {
        assert lines[..i + 1][..i] == lines[..i];
        match lines[i]
        case Record(snap) => latest := Some(snap);
        case Corrupt =>
      }
      assert lines[..|lines|] == lines;
      r := Latest(latest);
  }

  // ---- Recovering one task ----

  /** A record in memory: the stored snapshot, the separate truncation flag and its directory. */
  datatype TaskRecord = TaskRecord(stored: TaskSnapshot, truncated: bool, directory: nat)

  /** `TaskRecord::snapshot`: the flag replaces the stored mark. */
  function View(record: TaskRecord): TaskSnapshot {
    record.stored.(outputTruncated := record.truncated)
  }

  function MadeInterrupted(snap: TaskSnapshot, stamp: Timestamp): TaskSnapshot {
    snap.(status := Interrupted, finishedAt := Some(stamp), error := Some(UnfinishedAtRestart))
  }

  /** A task found unfinished in the log was interrupted by the restart. */
  function Settle(snap: TaskSnapshot, stamp: Timestamp): TaskSnapshot {
    if IsFinished(snap.status) then snap else MadeInterrupted(snap, stamp)
  }

  function RecoveredRecord(directory: nat, lines: seq<Line>, stamp: Timestamp): Option<TaskRecord> {
    match LastRecord(lines)
    case None => None
    case Some(snap) => Some(TaskRecord(Settle(snap, stamp), false, directory))
  }

  /** `view` shows the task of the log line `last` as interrupted at `stamp`: status, finish and error
      are those of the interruption, everything else is what the line says. */
  predicate InterruptedAt(view: TaskSnapshot, last: TaskSnapshot, stamp: Timestamp) {
    && view.status == Interrupted && view.finishedAt == Some(stamp) && view.error == Some(UnfinishedAtRestart)
    && view.taskId == last.taskId && view.route == last.route && view.createdAt == last.createdAt
    && view.outputMode == last.outputMode && view.encoding == last.encoding
    && view.startedAt == last.startedAt && view.exitCode == last.exitCode && view.termination == last.termination
  }

  /** Interrupted tasks are persisted again. */
  function RecoveredLines(directory: nat, lines: seq<Line>, stamp: Timestamp): seq<Line> {
    var r := RecoveredRecord(directory, lines, stamp);
    if r.Some? && r.value.stored.status == Interrupted then lines + [Record(View(r.value))] else lines
  }

  /** Recovery of any log, corrupt lines included: nothing if no line parses; else the last line that
      does, if it is terminal, or the task of that line interrupted now. One line is appended, what
      is shown from then on, exactly if that is Interrupted. */
  lemma RecoveryIsExact(directory: nat, lines: seq<Line>, stamp: Timestamp)
    ensures var r := RecoveredRecord(directory, lines, stamp);
            && (r.None? <==> forall i :: 0 <= i < |lines| ==> lines[i].Corrupt?)
            && (r.None? ==> RecoveredLines(directory, lines, stamp) == lines)
            && (r.Some? ==>
                  && r.value.directory == directory && !View(r.value).outputTruncated
                  && (exists i, last :: LastRecordAt(lines, i, last) &&
                        if IsFinished(last.status) then SameButTruncation(View(r.value), last)
                        else InterruptedAt(View(r.value), last, stamp))
                  && RecoveredLines(directory, lines, stamp) ==
                     (if View(r.value).status == Interrupted then lines + [Record(View(r.value))] else lines))
  {
    LastRecordIsLatest(lines);
    if LastRecord(lines).Some? {
      var last := LastRecord(lines).value;
      var i :| LastRecordAt(lines, i, last);
    }
  }

  /** The log after a series of restarts. */
  function RestartedLines(directory: nat, lines: seq<Line>, stamps: seq<Timestamp>): seq<Line>
    decreases |stamps|
  {
    if stamps == [] then lines
    else RestartedLines(directory, RecoveredLines(directory, lines, stamps[0]), stamps[1..])
  }

  /** However often the service restarts, every recovery shows what the first one showed. */
  lemma {:induction false} RecoverAgainAndAgain(directory: nat, lines: seq<Line>, first: Timestamp, more: seq<Timestamp>, last: Timestamp)
    ensures var once := RecoveredRecord(directory, lines, first);
            var again := RecoveredRecord(directory, RestartedLines(directory, RecoveredLines(directory, lines, first), more), last);
            && (once.Some? <==> again.Some?)
            && (once.Some? ==> View(again.value) == View(once.value) && IsFinished(View(once.value).status))
    decreases |more|
  {
    if more != [] {
      var settled := RecoveredLines(directory, lines, first);
      RecoverAgainAndAgain(directory, settled, more[0], more[1..], last);
      assert RecoveredRecord(directory, settled, more[0]).Some? <==> RecoveredRecord(directory, lines, first).Some?;
    }
  }

  /** Cut between any two appends of any run of the supervisor, the log yields: the snapshot
      that memory holds, if the last line is terminal; else that stage made Interrupted. */
  lemma CrashRecovery(c: S.Config, s0: S.State, acts: seq<S.Action>, directory: nat, cut: nat, stamp: Timestamp)
    requires S.IsInit(s0) && S.CanRun(c, s0, acts) && 1 <= cut <= |S.Run(c, s0, acts).log|
    ensures var s := S.Run(c, s0, acts);
            var line := s.log[cut - 1];
            var r := RecoveredRecord(directory, s.log[..cut], stamp);
            && line.Record? && r.Some?
            && StampedIffFinished(View(r.value)) && IsFinished(View(r.value).status)
            && !View(r.value).outputTruncated
            && (IsFinished(line.snap.status) ==>
                  SameButTruncation(View(r.value), line.snap) && SameButTruncation(View(r.value), s.core.snap))
            && (!IsFinished(line.snap.status) ==>
                  && InterruptedAt(View(r.value), line.snap, stamp)
                  && Rank(line.snap.status) <= Rank(s.core.snap.status))
  {
    SI.InitSafe(s0);
    SI.RunKeepsSafe(c, s0, acts);
    var s := S.Run(c, s0, acts);
    LineRecovers(directory, s.log, s.core.snap, cut, stamp);
  }

  lemma LineRecovers(directory: nat, log: seq<Line>, snap: TaskSnapshot, cut: nat, stamp: Timestamp)
    requires SI.LogOk(log, snap) && 1 <= cut <= |log|
    ensures var line := log[cut - 1];
            var r := RecoveredRecord(directory, log[..cut], stamp);
            && line.Record? && r.Some?
            && StampedIffFinished(View(r.value)) && IsFinished(View(r.value).status)
            && !View(r.value).outputTruncated
            && (IsFinished(line.snap.status) ==>
                  SameButTruncation(View(r.value), line.snap) && SameButTruncation(View(r.value), snap))
            && (!IsFinished(line.snap.status) ==>
                  && InterruptedAt(View(r.value), line.snap, stamp)
                  && Rank(line.snap.status) <= Rank(snap.status))
  {
    assert SI.LineOk(log[cut - 1], snap);
    assert LastRecord(log[..cut]) == Some(log[cut - 1].snap);
  }

  /** The statement of restart transparency for a supervisor state and the view that the next
      generation recovers from its log. */
  predicate Transparent(s: S.State, directory: nat, stamp: Timestamp) {
    var shown := View(TaskRecord(s.core.snap, s.env.truncated, directory));
    var r := RecoveredRecord(directory, s.log, stamp);
    && r.Some?
    && SameButTruncation(View(r.value), shown)
    && (View(r.value) == shown <==> !s.env.truncated)
  }

  lemma FinishedIsTransparent(s: S.State, directory: nat, stamp: Timestamp)
    requires SI.Safe(s) && s.pc.Done? && !s.persistFailed
    ensures Transparent(s, directory, stamp)
  {
    assert s.log[..|s.log|] == s.log;
    LineRecovers(directory, s.log, s.core.snap, |s.log|, stamp);
  }

  /** A finished supervisor whose persists all succeeded: the next generation shows the snapshot
      that clients saw last, in every field but `output_truncated`; in that one too exactly when
      the output was not truncated. */
  lemma RestartIsTransparent(c: S.Config, s0: S.State, acts: seq<S.Action>, directory: nat, stamp: Timestamp)
    requires S.IsInit(s0) && S.CanRun(c, s0, acts)
    requires S.Run(c, s0, acts).pc.Done? && !S.Run(c, s0, acts).persistFailed
    ensures Transparent(S.Run(c, s0, acts), directory, stamp)
  {
    SI.InitSafe(s0);
    SI.RunKeepsSafe(c, s0, acts);
    FinishedIsTransparent(S.Run(c, s0, acts), directory, stamp);
  }

  /** The loss occurs: a task prints more than its budget, succeeds, every persist succeeds, and
      the next generation no longer shows that its output was truncated. */
  lemma TruncationIsLost(snap: TaskSnapshot, directory: nat, stamp: Timestamp) returns (acts: seq<S.Action>, s: S.State)
    requires IsFresh(snap)
    ensures S.IsInit(S.Init(snap, None)) && R.LeadsTo(S.Init(snap, None), acts, s)
    ensures s.pc.Done? && !s.persistFailed && s.core.snap.status == Succeeded && s.env.truncated
    ensures RecoveredRecord(directory, s.log, stamp).Some?
    ensures !View(RecoveredRecord(directory, s.log, stamp).value).outputTruncated
  {
    var s0 := S.Init(snap, None);
    acts, s := R.RunsToExit(snap, true);
    acts, s := R.TreeEnds(s0, acts, s);
    acts, s := R.Joins(s0, acts, s);
    acts, s := R.Publishes(s0, acts, s);
    acts, s := R.Persists(s0, acts, s);
    acts, s := R.Finishes(s0, acts, s);
    RestartIsTransparent(R.ONE_READER, s0, acts, directory, stamp);
  }

  // ---- Expiry ----

  /** `Duration::whole_seconds`: truncation toward zero. */
  function WholeSeconds(d: int): int {
    if d >= 0 then d / NANOS else -((-d) / NANOS)
  }

  /** `u64 as i64`. */
  function AsI64(x: nat): int
    requires x < U64_SPAN
  {
    if x <= I64_MAX then x else x - U64_SPAN
  }

  /** The test of cleanup_expired for a snapshot with a `finished_at`. */
  predicate Expired(now: Timestamp, finishedAt: Timestamp, retention: nat)
    requires retention < U64_SPAN
  {
    WholeSeconds(now - finishedAt) >= AsI64(retention)
  }

  /** With a configured retention up to the i64 maximum, a task expires exactly when the full
      period has passed. */
  lemma ExpiresExactlyAfterRetention(now: Timestamp, finishedAt: Timestamp, retention: nat)
    requires 1 <= retention <= I64_MAX
    ensures Expired(now, finishedAt, retention) <==> now - finishedAt >= retention * NANOS
  {
    var d := now - finishedAt;
    if d >= 0 {
      assert d == (d / NANOS) * NANOS + d % NANOS;
      if d / NANOS >= retention {
        assert (d / NANOS) * NANOS >= retention * NANOS;
      } else {
        assert (d / NANOS) * NANOS <= (retention - 1) * NANOS;
      }
    }
  }

  /** The cast decides: no task is dropped early if and only if the retention fits in an i64. */
  lemma NoEarlyExpiryIffFits(retention: nat)
    requires 1 <= retention < U64_SPAN
    ensures (forall now: Timestamp, t: Timestamp :: Expired(now, t, retention) ==> now - t >= retention * NANOS)
            <==> retention <= I64_MAX
  {
    if retention <= I64_MAX {
      forall now: Timestamp, t: Timestamp | Expired(now, t, retention)
        ensures now - t >= retention * NANOS
      {
        ExpiresExactlyAfterRetention(now, t, retention);
      }
    } else {
      assert Expired(0, 0, retention);
    }
  }

  // ---- The store ----

  /** What file_type says of an entry; it may fail. */
  datatype EntryKind = Dir | NotDir | UnknownKind

  /** One entry of the tasks directory. `writable` says whether an append to its log succeeds. */
  datatype Directory = Directory(kind: EntryKind, log: LogFile, writable: bool)

  /** How the listing of the tasks directory goes: read_dir may fail, and next_entry may fail once
      a number of entries has been handed out. */
  datatype Listing = Listing(opens: bool, failsAfter: Option<nat>)

  predicate ListsAll(listing: Listing, n: nat) {
    listing.opens && (listing.failsAfter.Some? ==> n < listing.failsAfter.value)
  }

  /** What recovery makes of one entry; None when there is nothing to recover. */
  function RecordOf(path: nat, d: Directory, stamp: Timestamp): Option<TaskRecord> {
    if d.kind.Dir? && d.log.Lines? then RecoveredRecord(path, d.log.lines, stamp) else None
  }

  function AfterRecovery(path: nat, d: Directory, stamp: Timestamp): Directory {
    if d.kind.Dir? && d.log.Lines? then d.(log := Lines(RecoveredLines(path, d.log.lines, stamp))) else d
  }

  /** Recovery of this entry stops the whole of `recover` with an error. */
  predicate Blocks(path: nat, d: Directory, stamp: Timestamp) {
    || d.kind.UnknownKind?
    || (d.kind.Dir? && (d.log.Unreadable? || (AfterRecovery(path, d, stamp) != d && !d.writable)))
  }

  /** What stops recovery: an entry whose kind or log cannot be read, or a log to which an
      interruption should be appended but cannot. */
  lemma BlocksIff(path: nat, d: Directory, stamp: Timestamp)
    ensures Blocks(path, d, stamp) <==>
            || d.kind.UnknownKind?
            || (d.kind.Dir? && d.log.Unreadable?)
            || (d.kind.Dir? && d.log.Lines? && !d.writable && LastRecord(d.log.lines).Some?
                && (!IsFinished(LastRecord(d.log.lines).value.status) || LastRecord(d.log.lines).value.status == Interrupted))
  {
    if d.log.Lines? && LastRecord(d.log.lines).Some? {
      var r := RecoveredRecord(path, d.log.lines, stamp).value;
      assert |d.log.lines + [Record(View(r))]| != |d.log.lines|;
    }
  }

  predicate Expirable(record: TaskRecord, now: Timestamp, retention: nat)
    requires retention < U64_SPAN
  {
    record.stored.finishedAt.Some? && Expired(now, record.stored.finishedAt.value, retention)
  }

  /** The body of the loop of `recover` for one entry. */
  method RecoverEntry(path: nat, d: Directory, now: Timestamp) returns (ok: bool, record: Option<TaskRecord>, after: Directory)
    ensures ok <==> !Blocks(path, d, now)
    ensures ok ==> record == RecordOf(path, d, now) && after == AfterRecovery(path, d, now)
  {
    ok, record, after := true, None, d;
    if d.kind.UnknownKind? {
      ok := false;
    } else if d.kind.Dir? {
      var latest := ReadLatestSnapshot(d.log);
      if latest.ReadFailed? {
        ok := false;
      } else if latest.snap.Some? {
        var snapshot := latest.snap.value;
        if !IsFinished(snapshot.status) {
          snapshot := snapshot.(status := Interrupted, finishedAt := Some(now), error := Some(UnfinishedAtRestart));
        }
        record := Some(TaskRecord(snapshot, false, path));
        if snapshot.status == Interrupted {
          ok := d.writable;
          after := d.(log := Lines(d.log.lines + [Record(View(record.value))]));
        }
      }
    }
  }

  /** `disk` and `tasks` are what recovery has made of `disk0` so far; `todo` is still to come. */
  ghost predicate RecoveredExcept(disk0: map<nat, Directory>, clock: map<nat, Timestamp>, todo: set<nat>,
                                  disk: map<nat, Directory>, tasks: map<nat, TaskRecord>) {
    && disk.Keys == disk0.Keys == clock.Keys && todo <= disk.Keys
    && (forall p :: p in todo ==> disk[p] == disk0[p])
    && (forall p :: p in disk && p !in todo ==>
          disk[p] == AfterRecovery(p, disk0[p], clock[p]) && !Blocks(p, disk0[p], clock[p]))
    && (forall p :: p in disk && p !in todo && RecordOf(p, disk0[p], clock[p]).Some? ==>
          RecordOf(p, disk0[p], clock[p]).value.stored.taskId in tasks)
    && (forall id :: id in tasks ==> ComesFrom(tasks[id], disk0, clock) && tasks[id].stored.taskId == id)
  }

  ghost predicate ComesFrom(record: TaskRecord, disk0: map<nat, Directory>, clock: map<nat, Timestamp>) {
    && record.directory in disk0 && record.directory in clock
    && RecordOf(record.directory, disk0[record.directory], clock[record.directory]) == Some(record)
  }

  function WithRecord(tasks: map<nat, TaskRecord>, r: Option<TaskRecord>): map<nat, TaskRecord> {
    if r.Some? then tasks[r.value.stored.taskId := r.value] else tasks
  }

  lemma RecoverStep(disk0: map<nat, Directory>, clock: map<nat, Timestamp>, todo: set<nat>,
                    disk: map<nat, Directory>, tasks: map<nat, TaskRecord>, path: nat)
    requires RecoveredExcept(disk0, clock, todo, disk, tasks) && path in todo && !Blocks(path, disk[path], clock[path])
    ensures RecoveredExcept(disk0, clock, todo - {path}, disk[path := AfterRecovery(path, disk[path], clock[path])],
                            WithRecord(tasks, RecordOf(path, disk[path], clock[path])))
  {
  }

  /** No entry stops recovery. */
  predicate NoneBlocks(disk: map<nat, Directory>, clock: map<nat, Timestamp>)
    requires clock.Keys == disk.Keys
  {
    forall p :: p in disk ==> !Blocks(p, disk[p], clock[p])
  }

  lemma RecoveryStops(disk0: map<nat, Directory>, clock: map<nat, Timestamp>, todo: set<nat>,
                      disk: map<nat, Directory>, tasks: map<nat, TaskRecord>, path: nat)
    requires RecoveredExcept(disk0, clock, todo, disk, tasks) && path in todo && Blocks(path, disk[path], clock[path])
    ensures !NoneBlocks(disk0, clock)
  {
  }

  lemma RecoveryEnds(disk0: map<nat, Directory>, clock: map<nat, Timestamp>,
                     disk: map<nat, Directory>, tasks: map<nat, TaskRecord>)
    requires RecoveredExcept(disk0, clock, {}, disk, tasks)
    ensures NoneBlocks(disk0, clock)
  {
  }

  /** Every task in memory carries its id and comes from the log in its own directory. */
  ghost predicate AllFromLogs(tasks: map<nat, TaskRecord>, disk0: map<nat, Directory>, clock: map<nat, Timestamp>) {
    forall id :: id in tasks ==> ComesFrom(tasks[id], disk0, clock) && tasks[id].stored.taskId == id
  }

  lemma RecoveredFromLogs(disk0: map<nat, Directory>, clock: map<nat, Timestamp>, todo: set<nat>,
                          disk: map<nat, Directory>, tasks: map<nat, TaskRecord>)
    requires RecoveredExcept(disk0, clock, todo, disk, tasks)
    ensures AllFromLogs(tasks, disk0, clock) && disk.Keys == disk0.Keys
  {
  }

  /** The directories that go with the tasks `ids`. */
  ghost function DirectoriesOf(tasks: map<nat, TaskRecord>, ids: set<nat>, stuck: set<nat>): set<nat> {
    set id | id in ids && id in tasks && tasks[id].directory !in stuck :: tasks[id].directory
  }

  /** The tasks `gone` and their directories have been dropped, nothing else. */
  ghost predicate Dropped(tasks0: map<nat, TaskRecord>, disk0: map<nat, Directory>, gone: set<nat>, stuck: set<nat>,
                          tasks: map<nat, TaskRecord>, disk: map<nat, Directory>) {
    tasks == tasks0 - gone && disk == disk0 - DirectoriesOf(tasks0, gone, stuck)
  }

  lemma DropStep(tasks0: map<nat, TaskRecord>, disk0: map<nat, Directory>, gone: set<nat>, stuck: set<nat>,
                 tasks: map<nat, TaskRecord>, disk: map<nat, Directory>, id: nat)
    requires Dropped(tasks0, disk0, gone, stuck, tasks, disk) && id in tasks
    ensures Dropped(tasks0, disk0, gone + {id}, stuck, tasks - {id},
                    if tasks[id].directory in stuck then disk else disk - {tasks[id].directory})
  {
    assert DirectoriesOf(tasks0, gone + {id}, stuck) ==
           DirectoriesOf(tasks0, gone, stuck) + (if tasks[id].directory in stuck then {} else {tasks[id].directory});
  }

  // ---- Opening a store ----

  /** The directory of a task carries its id. */
  predicate IdsArePaths(disk: map<nat, Directory>) {
    forall p :: p in disk && disk[p].log.Lines? && LastRecord(disk[p].log.lines).Some? ==>
      LastRecord(disk[p].log.lines).value.taskId == p
  }

  /** All that recovery finds. */
  function RecoveredTasks(disk: map<nat, Directory>, clock: map<nat, Timestamp>): map<nat, TaskRecord> {
    map p | p in disk && p in clock && RecordOf(p, disk[p], clock[p]).Some? :: RecordOf(p, disk[p], clock[p]).value
  }

  /** What is left of it after the first cleanup. */
  function Opened(disk: map<nat, Directory>, clock: map<nat, Timestamp>, now: Timestamp, retention: nat): map<nat, TaskRecord>
    requires retention < U64_SPAN
  {
    var tasks := RecoveredTasks(disk, clock);
    map p | p in tasks && !Expirable(tasks[p], now, retention) :: tasks[p]
  }

  lemma RecordIsNamed(disk: map<nat, Directory>, clock: map<nat, Timestamp>, p: nat)
    requires IdsArePaths(disk) && p in disk && p in clock && RecordOf(p, disk[p], clock[p]).Some?
    ensures RecordOf(p, disk[p], clock[p]).value.stored.taskId == p
  {
  }

  /** When directories carry the ids of their tasks, recovery does not depend on their order. */
  lemma RecoveryIsDetermined(disk0: map<nat, Directory>, clock: map<nat, Timestamp>,
                             disk: map<nat, Directory>, tasks: map<nat, TaskRecord>)
    requires IdsArePaths(disk0) && RecoveredExcept(disk0, clock, {}, disk, tasks)
    ensures tasks == RecoveredTasks(disk0, clock)
  {
    forall p | p in disk0 && RecordOf(p, disk0[p], clock[p]).Some? ensures p in tasks {
      RecordIsNamed(disk0, clock, p);
    }
    forall id | id in tasks ensures id in disk0 && RecordOf(id, disk0[id], clock[id]) == Some(tasks[id]) {
      assert ComesFrom(tasks[id], disk0, clock);
      RecordIsNamed(disk0, clock, tasks[id].directory);
    }
  }

  /** The tasks and the directories of a store opened on `disk0`: the directories of expired tasks
      are gone, but for those in `stuck`. */
  ghost predicate OpenedFrom(disk0: map<nat, Directory>, clock: map<nat, Timestamp>, now: Timestamp, retention: nat, stuck: set<nat>,
                             tasks: map<nat, TaskRecord>, disk: map<nat, Directory>)
    requires retention < U64_SPAN
  {
    && clock.Keys == disk0.Keys
    && tasks == Opened(disk0, clock, now, retention)
    && disk.Keys == disk0.Keys - (RecoveredTasks(disk0, clock).Keys - tasks.Keys - stuck)
    && forall p :: p in disk ==> disk[p] == AfterRecovery(p, disk0[p], clock[p])
  }

  lemma CleanupOpens(disk0: map<nat, Directory>, clock: map<nat, Timestamp>, now: Timestamp, retention: nat, stuck: set<nat>,
                     found: map<nat, TaskRecord>, disk1: map<nat, Directory>,
                     tasks: map<nat, TaskRecord>, disk: map<nat, Directory>)
    requires retention < U64_SPAN && IdsArePaths(disk0) && RecoveredExcept(disk0, clock, {}, disk1, found)
    requires Dropped(found, disk1, (set id | id in found && Expirable(found[id], now, retention)), stuck, tasks, disk)
    ensures OpenedFrom(disk0, clock, now, retention, stuck, tasks, disk)
  {
    RecoveryIsDetermined(disk0, clock, disk1, found);
    forall p | p in found ensures found[p].directory == p {
      assert RecordOf(p, disk0[p], clock[p]) == Some(found[p]);
    }
  }

  class TaskStore {
    const retention: nat
    var disk: map<nat, Directory>
    var tasks: map<nat, TaskRecord>
    var stops: map<nat, StopReason>   // the last value sent to the stop channel of a task

    ghost predicate Valid()
      reads this
    {
      retention < U64_SPAN && forall id :: id in tasks ==> tasks[id].stored.taskId == id
    }

    constructor (retention: nat, disk: map<nat, Directory>)
      requires retention < U64_SPAN
      ensures Valid() && tasks == map[] && stops == map[] && this.disk == disk && this.retention == retention
    {
      this.retention, this.disk, this.tasks, this.stops := retention, disk, map[], map[];
    }

    /** A stop value reaches a task that is in memory and not terminal, and no other. */
    method RequestStop(id: nat, reason: StopReason) returns (accepted: bool)
      requires Valid()
      modifies this`stops
      ensures accepted <==> id in tasks && !IsFinished(tasks[id].stored.status)
      ensures stops == if accepted then old(stops)[id := reason] else old(stops)
    {
      if id !in tasks {
        return false;
      }
      if IsFinished(tasks[id].stored.status) {
        return false;
      }
      stops := stops[id := reason];
      return true;
    }

    /** The value reaches every task that is not terminal, overwriting what was sent before. */
    method CancelAll(reason: StopReason)
      requires Valid()
      modifies this`stops
      ensures forall id :: id in tasks && !IsFinished(tasks[id].stored.status) ==> id in stops && stops[id] == reason
      ensures forall id :: !(id in tasks && !IsFinished(tasks[id].stored.status)) ==>
                (id in stops <==> id in old(stops)) && (id in stops ==> stops[id] == old(stops)[id])
    {
      var records := tasks.Keys;
      while records != {}
        invariant records <= tasks.Keys
        invariant forall id :: id in tasks && id !in records && !IsFinished(tasks[id].stored.status) ==>
                    id in stops && stops[id] == reason
        invariant forall id :: !(id in tasks && id !in records && !IsFinished(tasks[id].stored.status)) ==>
                    (id in stops <==> id in old(stops)) && (id in stops ==> stops[id] == old(stops)[id])
        decreases |records|
      {
        var id :| id in records;
        if !IsFinished(tasks[id].stored.status) {
          stops := stops[id := reason];
        }
        records := records - {id};
      }
    }

    /** One turn of the loop of `recover`. */
    method Visit(path: nat, now: Timestamp) returns (ok: bool)
      requires path in disk
      modifies this`disk, this`tasks
      ensures ok <==> !Blocks(path, old(disk)[path], now)
      ensures ok ==> disk == old(disk)[path := AfterRecovery(path, old(disk)[path], now)]
      ensures ok ==> tasks == WithRecord(old(tasks), RecordOf(path, old(disk)[path], now))
      ensures !ok ==> disk == old(disk) && tasks == old(tasks)
    {
      var record, after;
      ok, record, after := RecoverEntry(path, disk[path], now);
      if ok {
        disk := disk[path := after];
        if record.Some? {
          tasks := tasks[record.value.stored.taskId := record.value];
        }
      }
    }

    /** The loop of `recover` over the entries in any order, at the clock readings of `clock`;
        next_entry fails after `n` entries. */
    method RecoverEntries(clock: map<nat, Timestamp>, n: nat) returns (ok: bool)
      requires Valid() && tasks == map[] && clock.Keys == disk.Keys
      modifies this`disk, this`tasks
      ensures Valid() && disk.Keys == old(disk).Keys
      ensures ok <==> |old(disk)| < n && NoneBlocks(old(disk), clock)
      ensures ok ==> RecoveredExcept(old(disk), clock, {}, disk, tasks)
      ensures AllFromLogs(tasks, old(disk), clock)
    {
      var todo := disk.Keys;
      var left := n;
      while todo != {} && left > 0
        invariant RecoveredExcept(old(disk), clock, todo, disk, tasks)
        invariant |todo| - left == |old(disk).Keys| - n
        decreases |todo|
      {
        left := left - 1;
        var path :| path in todo;
        ghost var disk1, tasks1 := disk, tasks;
        var readable := Visit(path, clock[path]);
        if !readable {
          RecoveryStops(old(disk), clock, todo, disk, tasks, path);
          RecoveredFromLogs(old(disk), clock, todo, disk, tasks);
          return false;
        }
        RecoverStep(old(disk), clock, todo, disk1, tasks1, path);
        todo := todo - {path};
      }
      RecoveredFromLogs(old(disk), clock, todo, disk, tasks);
      if left == 0 {
        return false;
      }
      RecoveryEnds(old(disk), clock, disk, tasks);
      return true;
    }

    /** `recover`. */
    method Recover(clock: map<nat, Timestamp>, listing: Listing) returns (ok: bool)
      requires Valid() && tasks == map[] && clock.Keys == disk.Keys
      modifies this`disk, this`tasks
      ensures Valid() && disk.Keys == old(disk).Keys
      ensures ok <==> ListsAll(listing, |old(disk)|) && NoneBlocks(old(disk), clock)
      ensures ok ==> RecoveredExcept(old(disk), clock, {}, disk, tasks)
      ensures AllFromLogs(tasks, old(disk), clock)
    {
      if !listing.opens {
        return false;
      }
      ok := RecoverEntries(clock, if listing.failsAfter.Some? then listing.failsAfter.value else |disk| + 1);
    }

    /** The scan: the ids whose retention has passed. */
    method FindExpired(now: Timestamp) returns (expired: set<nat>)
      requires Valid()
      ensures expired == set id | id in tasks && Expirable(tasks[id], now, retention)
    {
      var records := tasks.Keys;
      expired := {};
      while records != {}
        invariant records <= tasks.Keys
        invariant expired == set id | id in tasks && id !in records && Expirable(tasks[id], now, retention)
        decreases |records|
      {
        var id :| id in records;
        var finishedAt := tasks[id].stored.finishedAt;
        if finishedAt.Some? {
          if WholeSeconds(now - finishedAt.value) >= AsI64(retention) {
            expired := expired + {tasks[id].stored.taskId};
          }
        }
        records := records - {id};
      }
    }

    /** Drops the tasks that the scan found; the directories in `stuck` cannot be deleted. */
    method CleanupExpired(now: Timestamp, stuck: set<nat>)
      requires Valid()
      modifies this`disk, this`tasks
      ensures Valid()
      ensures Dropped(old(tasks), old(disk),
                      (set id | id in old(tasks) && Expirable(old(tasks)[id], now, retention)),
                      stuck, tasks, disk)
    {
      var expired := FindExpired(now);
      var todo := expired;
      while todo != {}
        invariant todo <= expired <= old(tasks).Keys
        invariant Dropped(old(tasks), old(disk), expired - todo, stuck, tasks, disk)
        decreases |todo|
      {
        var id :| id in todo;
        DropStep(old(tasks), old(disk), expired - todo, stuck, tasks, disk, id);
        assert expired - (todo - {id}) == expired - todo + {id};
        var directory := tasks[id].directory;
        tasks := tasks - {id};
        if directory !in stuck {
          disk := disk - {directory};
        }
        todo := todo - {id};
      }
      assert expired - todo == expired;
    }

    /** `open`: recovery, then the first cleanup. */
    method Open(clock: map<nat, Timestamp>, listing: Listing, now: Timestamp, stuck: set<nat>) returns (ok: bool)
      requires Valid() && tasks == map[] && clock.Keys == disk.Keys
      modifies this`disk, this`tasks
      ensures Valid()
      ensures ok <==>
                && ListsAll(listing, |old(disk)|)
                && NoneBlocks(old(disk), clock)
      ensures ok && IdsArePaths(old(disk)) ==> OpenedFrom(old(disk), clock, now, retention, stuck, tasks, disk)
    {
      ok := Recover(clock, listing);
      if ok {
        ghost var found, disk1 := tasks, disk;
        CleanupExpired(now, stuck);
        if IdsArePaths(old(disk)) {
          CleanupOpens(old(disk), clock, now, retention, stuck, found, disk1, tasks, disk);
        }
      }
    }
  }
}
