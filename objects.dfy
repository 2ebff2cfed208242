/** The semantic records of `pygdbmi/objects.py`: result records, stream
    records, and the exec, status and notify async records, with the
    `StopReason` enumeration.

    Each Python class with a constructor becomes a datatype constructor whose
    parameters are the arguments that constructor stores; the read-only
    properties are the destructors, so a record never changes after it is
    built. The class hierarchy is kept as `PyClass`, `Base` and `Mro`, so that the
    categories the classes belong to can be stated against the datatypes. */
module Objects {
  import opened Wrappers

  /** The values the records hold. Python does not constrain them; these are
      the kinds the protocol's fields take. */
  datatype PyValue =
    | PyNone
    | PyStr(s: string)
    | PyInt(i: int)
    | PyList(items: seq<PyValue>)

  // ---------------------------------------------------------------------------
  // Result and stream records
  // ---------------------------------------------------------------------------

  datatype ResultRecord =
    | DoneResultRecord
    | ConnectedResultRecord
    | ErrorResultRecord(msg: PyValue, code: PyValue)
    | ExitResultRecord

  /** The three stream records pass their text unchanged to `StreamRecord`. */
  datatype StreamRecord =
    | ConsoleOutput(text: PyValue)
    | TargetOutput(text: PyValue)
    | LogOutput(text: PyValue)

  // ---------------------------------------------------------------------------
  // Stop reasons
  // ---------------------------------------------------------------------------

  datatype StopReason =
    | BreakpointHit
    | WatchpointTrigger
    | ReadWatchpointTrigger
    | AccessWatchpointTrigger
    | FunctionFinished
    | LocationReached
    | WatchpointScope
    | EndSteppingRange
    | ExitedSignalled
    | Exited
    | ExitedNormally
    | SignalReceived
    | SolibEvent
    | Fork
    | Vfork
    | SyscallEntry
    | SyscallReturn
    | Exec

  /** The members in declaration order. */
  const StopReasons: seq<StopReason> := [
    BreakpointHit, WatchpointTrigger, ReadWatchpointTrigger, AccessWatchpointTrigger,
    FunctionFinished, LocationReached, WatchpointScope, EndSteppingRange,
    ExitedSignalled, Exited, ExitedNormally, SignalReceived, SolibEvent,
    Fork, Vfork, SyscallEntry, SyscallReturn, Exec
  ]

  /** The `value` of a member. */
  function StopReasonValue(r: StopReason): (v: nat)
    ensures v < 18
  {
    match r
    case BreakpointHit => 0
    case WatchpointTrigger => 1
    case ReadWatchpointTrigger => 2
    case AccessWatchpointTrigger => 3
    case FunctionFinished => 4
    case LocationReached => 5
    case WatchpointScope => 6
    case EndSteppingRange => 7
    case ExitedSignalled => 8
    case Exited => 9
    case ExitedNormally => 10
    case SignalReceived => 11
    case SolibEvent => 12
    case Fork => 13
    case Vfork => 14
    case SyscallEntry => 15
    case SyscallReturn => 16
    case Exec => 17
  }

  /** `StopReason(v)`: the member whose value is `v`, or none (Python raises
      `ValueError`). */
  function StopReasonOf(v: int): (r: Option<StopReason>)
    ensures r.Some? <==> 0 <= v < 18
    ensures r.Some? ==> StopReasonValue(r.value) == v
  {
    if 0 <= v < |StopReasons| then Some(StopReasons[v]) else None
  }

  /** The enumeration has exactly eighteen members, listed in declaration
      order with the values 0 to 17. */
  lemma StopReasonMembers()
    ensures |StopReasons| == 18
    ensures forall i :: 0 <= i < |StopReasons| ==> StopReasonValue(StopReasons[i]) == i
    ensures forall r :: StopReasons[StopReasonValue(r)] == r
  {
  }

  /** Looking a member up by its value finds that member again. */
  lemma {:induction false} StopReasonRoundTrip(r: StopReason)
    ensures StopReasonOf(StopReasonValue(r)) == Some(r)
  {
    StopReasonMembers();
  }

  lemma StopReasonValuesDistinct(a: StopReason, b: StopReason)
    ensures StopReasonValue(a) == StopReasonValue(b) <==> a == b
  {
    StopReasonRoundTrip(a);
    StopReasonRoundTrip(b);
  }

  // ---------------------------------------------------------------------------
  // Async records
  // ---------------------------------------------------------------------------

  datatype ExecAsyncOutput =
    | RunningAsyncOutput(threadId: PyValue)
    | StoppedAsyncOutput(reason: StopReason, threadId: PyValue, stoppedThreadIds: PyValue, core: PyValue)

  /** `StoppedAsyncOutput.all_threads_stopped()`: derived from the stored
      thread ids, never stored itself. */
  predicate AllThreadsStopped(o: ExecAsyncOutput): (all: bool)
    requires o.StoppedAsyncOutput?
    ensures all ==> o.stoppedThreadIds.PyStr? && o.stoppedThreadIds.s == "all"
    ensures o.stoppedThreadIds.PyList? || o.stoppedThreadIds.PyNone? || o.stoppedThreadIds.PyInt? ==> !all
  {
    o.stoppedThreadIds == PyStr("all")
  }

  datatype NotifyAsyncOutput =
    | ThreadGroupAddedAsyncOutput(threadGroupId: PyValue)
    | ThreadGroupRemovedAsyncOutput(threadGroupId: PyValue)
    | ThreadGroupStartedAsyncOutput(threadGroupId: PyValue, pid: PyValue)
    | ThreadGroupExitedAsyncOutput(threadGroupId: PyValue, exitCode: PyValue)
    | ThreadCreatedAsyncOutput(threadId: PyValue, threadGroupId: PyValue)
    | ThreadExitedAsyncOutput(threadId: PyValue, threadGroupId: PyValue)
    | ThreadSelectedAsyncOutput(threadId: PyValue)
    | RecordStartedAsyncOutput(threadGroupId: PyValue)
    | RecordStoppedAsyncOutput(threadGroupId: PyValue)
    | CmdParamChangedAsyncOutput(params: PyValue, value: PyValue)

  datatype AsyncRecord =
    | ExecRecord(exec: ExecAsyncOutput)
    | StatusAsyncOutput
    | NotifyRecord(notify: NotifyAsyncOutput)

  /** Any record of the object model. */
  datatype Record =
    | ResultOutput(result: ResultRecord)
    | StreamOutput(stream: StreamRecord)
    | AsyncOutput(asyncRecord: AsyncRecord)

  /** `all_threads_stopped()` holds exactly when the stored value is the
      string `'all'`: an explicit collection of ids, even an empty one, or any
      other string, does not count as all threads. */
  lemma AllThreadsStoppedOnlyForSentinel(r: StopReason, threadId: PyValue, ids: PyValue, core: PyValue)
    ensures AllThreadsStopped(StoppedAsyncOutput(r, threadId, ids, core)) <==> ids == PyStr("all")
    ensures ids.PyList? ==> !AllThreadsStopped(StoppedAsyncOutput(r, threadId, ids, core))
    ensures ids.PyStr? && ids.s != "all" ==> !AllThreadsStopped(StoppedAsyncOutput(r, threadId, ids, core))
  {
  }

  /** Every property returns what its constructor stored. */
  lemma PropertiesReturnArguments(a: PyValue, b: PyValue, c: PyValue, r: StopReason)
    ensures ErrorResultRecord(a, b).msg == a && ErrorResultRecord(a, b).code == b
    ensures ConsoleOutput(a).text == a && TargetOutput(a).text == a && LogOutput(a).text == a
    ensures RunningAsyncOutput(a).threadId == a
    ensures var s := StoppedAsyncOutput(r, a, b, c);
      s.reason == r && s.threadId == a && s.stoppedThreadIds == b && s.core == c
    ensures ThreadGroupStartedAsyncOutput(a, b).threadGroupId == a && ThreadGroupStartedAsyncOutput(a, b).pid == b
    ensures ThreadGroupExitedAsyncOutput(a, b).threadGroupId == a && ThreadGroupExitedAsyncOutput(a, b).exitCode == b
    ensures ThreadCreatedAsyncOutput(a, b).threadId == a && ThreadCreatedAsyncOutput(a, b).threadGroupId == b
    ensures ThreadExitedAsyncOutput(a, b).threadId == a && ThreadExitedAsyncOutput(a, b).threadGroupId == b
    ensures CmdParamChangedAsyncOutput(a, b).params == a && CmdParamChangedAsyncOutput(a, b).value == b
    ensures ThreadGroupAddedAsyncOutput(a).threadGroupId == a
    ensures ThreadGroupRemovedAsyncOutput(a).threadGroupId == a
    ensures ThreadSelectedAsyncOutput(a).threadId == a
    ensures RecordStartedAsyncOutput(a).threadGroupId == a
    ensures RecordStoppedAsyncOutput(a).threadGroupId == a
  {
  }

  // ---------------------------------------------------------------------------
  // The class hierarchy
  // ---------------------------------------------------------------------------

  datatype PyClass =
    | ResultRecordClass
    | DoneResultRecordClass
    | ConnectedResultRecordClass
    | ErrorResultRecordClass
    | ExitResultRecordClass
    | StreamRecordClass
    | ConsoleOutputClass
    | TargetOutputClass
    | LogOutputClass
    | AsyncRecordClass
    | ExecAsyncOutputClass
    | StatusAsyncOutputClass
    | NotifyAsyncOutputClass
    | RunningAsyncOutputClass
    | StoppedAsyncOutputClass
    | ThreadGroupAddedAsyncOutputClass
    | ThreadGroupRemovedAsyncOutputClass
    | ThreadGroupStartedAsyncOutputClass
    | ThreadGroupExitedAsyncOutputClass
    | ThreadCreatedAsyncOutputClass
    | ThreadExitedAsyncOutputClass
    | ThreadSelectedAsyncOutputClass
    | RecordStartedAsyncOutputClass
    | RecordStoppedAsyncOutputClass
    | CmdParamChangedAsyncOutputClass

  /** The base class named in each class statement; none for the three roots,
      which derive from `object`. */
  function Base(c: PyClass): Option<PyClass> {
    match c
    case ResultRecordClass => None
    case DoneResultRecordClass => Some(ResultRecordClass)
    case ConnectedResultRecordClass => Some(ResultRecordClass)
    case ErrorResultRecordClass => Some(ResultRecordClass)
    case ExitResultRecordClass => Some(ResultRecordClass)
    case StreamRecordClass => None
    case ConsoleOutputClass => Some(StreamRecordClass)
    case TargetOutputClass => Some(StreamRecordClass)
    case LogOutputClass => Some(StreamRecordClass)
    case AsyncRecordClass => None
    case ExecAsyncOutputClass => Some(AsyncRecordClass)
    case StatusAsyncOutputClass => Some(AsyncRecordClass)
    case NotifyAsyncOutputClass => Some(AsyncRecordClass)
    case RunningAsyncOutputClass => Some(ExecAsyncOutputClass)
    case StoppedAsyncOutputClass => Some(ExecAsyncOutputClass)
    case _ => Some(NotifyAsyncOutputClass)
  }

  /** The classes `c` derives from, itself first and `object` left out (its
      `__mro__`). */
  function Mro(c: PyClass): seq<PyClass> {
    match c
    case ResultRecordClass => [c]
    case StreamRecordClass => [c]
    case AsyncRecordClass => [c]
    case DoneResultRecordClass => [c, ResultRecordClass]
    case ConnectedResultRecordClass => [c, ResultRecordClass]
    case ErrorResultRecordClass => [c, ResultRecordClass]
    case ExitResultRecordClass => [c, ResultRecordClass]
    case ConsoleOutputClass => [c, StreamRecordClass]
    case TargetOutputClass => [c, StreamRecordClass]
    case LogOutputClass => [c, StreamRecordClass]
    case ExecAsyncOutputClass => [c, AsyncRecordClass]
    case StatusAsyncOutputClass => [c, AsyncRecordClass]
    case NotifyAsyncOutputClass => [c, AsyncRecordClass]
    case RunningAsyncOutputClass => [c, ExecAsyncOutputClass, AsyncRecordClass]
    case StoppedAsyncOutputClass => [c, ExecAsyncOutputClass, AsyncRecordClass]
    case _ => [c, NotifyAsyncOutputClass, AsyncRecordClass]
  }

  /** Each class's resolution order is the chain of base classes from the
      class statements: it starts at the class, each entry's base is the next
      entry, and the last entry derives from `object`. */
  lemma MroFollowsBase(c: PyClass)
    ensures |Mro(c)| > 0 && Mro(c)[0] == c
    ensures forall i :: 0 <= i < |Mro(c)| - 1 ==> Base(Mro(c)[i]) == Some(Mro(c)[i + 1])
    ensures Base(Mro(c)[|Mro(c)| - 1]).None?
  {
  }

  /** The class a record is an instance of. */
  function ClassOf(r: Record): PyClass {
    match r
    case ResultOutput(DoneResultRecord) => DoneResultRecordClass
    case ResultOutput(ConnectedResultRecord) => ConnectedResultRecordClass
    case ResultOutput(ErrorResultRecord(_, _)) => ErrorResultRecordClass
    case ResultOutput(ExitResultRecord) => ExitResultRecordClass
    case StreamOutput(ConsoleOutput(_)) => ConsoleOutputClass
    case StreamOutput(TargetOutput(_)) => TargetOutputClass
    case StreamOutput(LogOutput(_)) => LogOutputClass
    case AsyncOutput(ExecRecord(RunningAsyncOutput(_))) => RunningAsyncOutputClass
    case AsyncOutput(ExecRecord(StoppedAsyncOutput(_, _, _, _))) => StoppedAsyncOutputClass
    case AsyncOutput(StatusAsyncOutput) => StatusAsyncOutputClass
    case AsyncOutput(NotifyRecord(n)) =>
      match n
      case ThreadGroupAddedAsyncOutput(_) => ThreadGroupAddedAsyncOutputClass
      case ThreadGroupRemovedAsyncOutput(_) => ThreadGroupRemovedAsyncOutputClass
      case ThreadGroupStartedAsyncOutput(_, _) => ThreadGroupStartedAsyncOutputClass
      case ThreadGroupExitedAsyncOutput(_, _) => ThreadGroupExitedAsyncOutputClass
      case ThreadCreatedAsyncOutput(_, _) => ThreadCreatedAsyncOutputClass
      case ThreadExitedAsyncOutput(_, _) => ThreadExitedAsyncOutputClass
      case ThreadSelectedAsyncOutput(_) => ThreadSelectedAsyncOutputClass
      case RecordStartedAsyncOutput(_) => RecordStartedAsyncOutputClass
      case RecordStoppedAsyncOutput(_) => RecordStoppedAsyncOutputClass
      case CmdParamChangedAsyncOutput(_, _) => CmdParamChangedAsyncOutputClass
  }

  /** `isinstance(r, c)`. */
  predicate IsInstance(r: Record, c: PyClass) {
    c in Mro(ClassOf(r))
  }

  /** The categories the class statements declare agree with the nesting of
      the datatypes: a record is an instance of a category exactly when it is
      built with that category's constructor. So Running and Stopped are exec
      async records, the ten thread-group, thread, recording and parameter
      records are notify async records, and the four result records are
      result records. */
  lemma CategoryMembership(r: Record)
    ensures IsInstance(r, ResultRecordClass) <==> r.ResultOutput?
    ensures IsInstance(r, StreamRecordClass) <==> r.StreamOutput?
    ensures IsInstance(r, AsyncRecordClass) <==> r.AsyncOutput?
    ensures IsInstance(r, ExecAsyncOutputClass) <==> r.AsyncOutput? && r.asyncRecord.ExecRecord?
    ensures IsInstance(r, StatusAsyncOutputClass) <==> r == AsyncOutput(StatusAsyncOutput)
    ensures IsInstance(r, NotifyAsyncOutputClass) <==> r.AsyncOutput? && r.asyncRecord.NotifyRecord?
  {
  }
}
