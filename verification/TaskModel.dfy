/** The vocabulary of src/model.rs: task statuses, stop reasons and the snapshot that is
    kept in memory, appended to the event log and shown to clients.

    Wall-clock timestamps are integers (nanoseconds); the localised texts of a termination
    and of an error are replaced by their kinds. */
module TaskModel {

  datatype Option<+T> = None | Some(value: T)

  newtype Byte = x: int | 0 <= x < 256

  /** Nanoseconds of a second; the number of values of a u64; the greatest i64. */
  const NANOS: nat := 1_000_000_000
  const U64_SPAN: nat := 0x1_0000_0000_0000_0000
  const I64_MAX: nat := 0x7FFF_FFFF_FFFF_FFFF

  datatype TaskStatus =
    | Starting | Running | Stopping
    | Succeeded | Failed | TimedOut | Cancelled | Killed | Interrupted

  predicate IsFinished(status: TaskStatus) {
    status.Succeeded? || status.Failed? || status.TimedOut? || status.Cancelled? || status.Killed? || status.Interrupted?
  }

  /** Position along Starting, Running, Stopping, terminal. */
  function Rank(status: TaskStatus): nat {
    match status
    case Starting => 0
    case Running => 1
    case Stopping => 2
    case _ => 3
  }

  datatype StopReason =
    | Timeout | CancelRequested | ForceKilled | ServerShutdown | ServerRestart | ParentExited | LoggingFailure

  datatype OutputMode = Separate | Combined

  datatype OutputEncoding = Utf8 | Gbk | Utf16le

  datatype OutputStream = StdoutStream | StderrStream | CombinedStream

  datatype Termination = Termination(reason: StopReason, gracefulAttempted: bool, forced: bool)

  datatype TaskError =
    | SupervisorError
    | NonZeroExit(code: Option<int>)
    | LogWriteFailed
    | UnfinishedAtRestart

  type Timestamp = int

  datatype TaskSnapshot = TaskSnapshot(
    taskId: nat,
    route: string,
    status: TaskStatus,
    outputMode: OutputMode,
    encoding: OutputEncoding,
    createdAt: Timestamp,
    startedAt: Option<Timestamp>,
    finishedAt: Option<Timestamp>,
    exitCode: Option<int>,
    termination: Option<Termination>,
    error: Option<TaskError>,
    outputTruncated: bool)

  /** The snapshot that `create` stores for a new task. */
  predicate IsFresh(snap: TaskSnapshot) {
    && snap.status == Starting
    && snap.startedAt == None
    && snap.finishedAt == None
    && snap.exitCode == None
    && snap.termination == None
    && snap.error == None
    && !snap.outputTruncated
  }

  /** `finished_at` is present exactly on terminal snapshots. */
  predicate StampedIffFinished(snap: TaskSnapshot) {
    snap.finishedAt.Some? <==> IsFinished(snap.status)
  }

  /** Equality of two snapshots in every field but `output_truncated`. */
  predicate SameButTruncation(a: TaskSnapshot, b: TaskSnapshot) {
    a.(outputTruncated := b.outputTruncated) == b
  }

  datatype ExitStatus = ExitStatus(code: Option<int>) {
    predicate Success() { code == Some(0) }
  }

  /** One line of events.jsonl: a parsable snapshot, or a line that does not parse. */
  datatype Line = Record(snap: TaskSnapshot) | Corrupt
}
