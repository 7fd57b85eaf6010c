/**
 One worker process and the main-process object that drives it, as a state machine over
 their interleaved steps: `SpawnProcWorker.run_sync` and the cache's shutdown on one side,
 `worker_behavior` on the other, and two bounded byte pipes between them. Pipes carry the
 bytes of `Framing.Frame`; every partial write and short read is a step of its own. A pipe
 is kept as the stream of all bytes its writer has set out to write, with cursors for how
 far writer and reader have come: what is in the pipe is the part between the cursors.

 A `Label` names a step; `Enabled` says when it can happen and `Apply` what it does.
 Fields of `State` marked as history only record what happened; steps look at them only for
 the size of the message that is being written.
 */
module Protocol {
  import opened Options
  import opened Framing

  /** What a job's result or exception is made of stays opaque. There are no more of them
      than there are messages to pickle them into. */
  type Datum = d: Bytes | |d| + 1 < TWO_64 witness []

  datatype Outcome = Value(value: Datum) | Error(exc: Datum)

  /** What a worker sends: a job's outcome, or the bare None sentinel. */
  datatype Parcel = NoneValue | Result(outcome: Outcome)

  /** _POSIX_PIPE_BUF of POSIX.1-2001 */
  const PIPE_BUF: nat := 512

  /** Pickling, the size of a pipe, and the EAGER_CLEANUP switch. */
  datatype Config = Config(dumps: Parcel -> Payload, loads: Bytes -> Option<Parcel>, capacity: nat, eager: bool)

  /** Pickles load back, and the pickled None is small: the one thing asked of its size. */
  ghost predicate Sane(c: Config) {
    && (forall p :: c.loads(c.dumps(p)) == Some(p))
    && |SentinelFrame(c)| <= PIPE_BUF <= c.capacity
  }

  function SentinelFrame(c: Config): Bytes {
    Frame(c.dumps(NoneValue))
  }

  function ReplyFrame(c: Config, o: Outcome): Bytes {
    Frame(c.dumps(Result(o)))
  }

  /** A pickling, for the sake of example: a tag and then the datum. */
  function PlainDumps(p: Parcel): Payload {
    match p
    case NoneValue => []
    case Result(Value(d)) => [0] + d
    case Result(Error(d)) => [1] + d
  }

  function PlainLoads(b: Bytes): Option<Parcel> {
    if b == [] then Some(NoneValue)
    else if |b| >= TWO_64 then None
    else if b[0] == 0 then Some(Result(Value(b[1..])))
    else if b[0] == 1 then Some(Result(Error(b[1..])))
    else None
  }

  function Plain(capacity: nat, eager: bool): Config {
    Config(PlainDumps, PlainLoads, capacity, eager)
  }

  /** There is such a pickling, for pipes of any capacity POSIX allows. */
  lemma PlainIsSane(capacity: nat, eager: bool)
    requires capacity >= PIPE_BUF
    ensures Sane(Plain(capacity, eager))
  {
  }

  // ------------------------------------------------------------------- pipes

  /** `mark` is where the message the reader is working on begins. */
  datatype Cursors = Cursors(stream: Bytes, written: nat, read: nat, mark: nat) {
    predicate Ordered() {
      mark <= read <= written <= |stream|
    }
  }

  type Pipe = p: Cursors | p.Ordered() witness Cursors([], 0, 0, 0)

  function Unwritten(p: Pipe): nat {
    |p.stream| - p.written
  }

  function InFlight(p: Pipe): nat {
    p.written - p.read
  }

  /** What the reader has of its current message. */
  function Current(p: Pipe): Bytes {
    p.stream[p.mark..p.read]
  }

  /** How many bytes the reader asks for next. */
  function Wants(p: Pipe): nat {
    Need(Current(p))
  }

  /** What those bytes amount to. */
  function Heard(p: Pipe): Decoded {
    Decode(Current(p))
  }

  function Queue(p: Pipe, data: Bytes): Pipe {
    p.(stream := p.stream + data)
  }

  function Push(p: Pipe, k: nat): Pipe
    requires k <= Unwritten(p)
  {
    p.(written := p.written + k)
  }

  function Pull(p: Pipe, k: nat): Pipe
    requires k <= InFlight(p)
  {
    p.(read := p.read + k)
  }

  /** The reader turns to its next message. */
  function Turn(p: Pipe): Pipe {
    p.(mark := p.read)
  }

  // ------------------------------------------------------------------- state

  /** Cancelled: by the caller; BrokenWorker: end of channel; TornReply: end of file
      inside a reply; BadLoad: the reply does not unpickle; PipeShut: the job pipe was closed
      by shutdown. */
  datatype Exc = Cancelled | BrokenWorker | TornReply | BadLoad | PipeShut

  /** How `run_sync` ends; Retry is its None. */
  datatype Answer = Delivered(outcome: Outcome) | Unpicklable(exc: Bytes) | Retry | Raised(why: Exc)

  datatype Main =
    | Idle                     // no submission: held by the caller or cached
    | Send                     // writing the job
    | Receive                  // reading the reply
    | Drop                     // end of channel seen, about to close the job pipe
    | AwaitExit                // shielded wait, then answer None
    | AwaitBroken              // shielded wait, then raise BrokenWorkerProcessError
    | Fail(exc: Exc)           // an exception reached the outer handler
    | Killed(exc: Exc)         // kill issued, shielded wait
    | Done(answer: Answer)
    | Shut                     // the cache's shutdown closed the job pipe

  datatype Cause = Own | ByKill | Outside

  datatype Worker =
    | Init                     // running init()
    | Poll                     // safe_poll
    | Recv                     // recv_bytes
    | Run(job: Bytes)          // handle_job
    | Reply                    // send_bytes
    | Retire                   // running retire()
    | CloseRecv                // else branch, EAGER_CLEANUP
    | Sentinel
    | CloseSend
    | GraceSend                // except (BrokenPipeError, EOFError)
    | GraceRecv
    | BadSend                  // except BaseException
    | Drain
    | Leaving(code: int)       // past worker_behavior, the process is ending
    | Dead(code: int, cause: Cause)

  /** Which way out of the worker's loop was taken (history). UserShut is the graceful
      branch entered because init, retire or pickling an outcome raised one of its
      exceptions. */
  datatype Path = Looping | Clean | PipeClosed | UserShut | Bad

  datatype State = State(
    main: Main,
    worker: Worker,
    jobs: Pipe,
    results: Pipe,
    mainOpen: bool,            // main's write end of the job pipe
    readOpen: bool,            // worker's read end of the job pipe
    writeOpen: bool,           // worker's write end of the result pipe
    killed: bool,              // a kill was sent to the living process
    path: Path,                // history
    job: Payload,              // history: the job of the latest submission,
    taken: bool,               //   whether the worker has consumed all of its frame,
    entries: nat,              //   how often handle_job was entered for it,
    made: Option<Outcome>,     //   and what that entry produced
    replyDue: bool,            // history: main has yet to finish with the reply,
    noneDue: bool              //   or with a sentinel that was written
  )

  function Fresh(): State {
    var empty := Cursors([], 0, 0, 0);
    State(Idle, Init, empty, empty, true, true, true, false, Looping, [], true, 0, None, false, false)
  }

  /** ShutdownLookalike stands for EOFError and BrokenPipeError. */
  datatype UserExc = ShutdownLookalike | Other

  /** Steps the caller of this worker takes. */
  datatype Call = Submit(job: Payload) | SubmitUnpicklable(exc: Bytes) | Return | Shutdown | ShutKill | SubmitShut(job: Payload)

  /** Steps of run_sync. */
  datatype MainStep =
    | Write(k: nat) | WriteFails
    | Read(k: nat) | ReadEof | Load | LoadFails
    | DropClose | Reaped | Kill | KillReaped

  /** Steps of worker_behavior in the loop, and on each way out of it. The code with which a
      worker ends after a failure is the exception's business: it is 0 for SystemExit(0). */
  datatype LoopStep = PollReady | Take(k: nat) | TakeEof | Start | Put(k: nat)

  datatype ExitStep =
    | CloseReadEnd | PutSentinel | CloseWriteEnd
    | GraceCloseWrite | GraceCloseRead
    | BadCloseWrite | DrainTake(k: nat) | DrainEof(code: int)
    | Exit | Die

  /** Returns from user code in the worker. */
  datatype UserStep =
    | InitOk | InitRaises(e: UserExc)
    | JobEnds(o: Outcome) | JobUndumpable(e: UserExc)
    | RetireKeeps | RetireQuits | RetireRaises(e: UserExc)

  /** What the surroundings do: the idle timeout, cancellation, and death from outside. */
  datatype WorldStep = PollExpires | Cancel | Perish(code: int)

  datatype Label = Calls(call: Call) | Mains(step: MainStep) | Loops(loop: LoopStep) | Exits(exit: ExitStep)
                 | Users(user: UserStep) | Worlds(world: WorldStep)

  /** What an answer of one `run_sync` says about the job and the worker: its contract
      towards the context. `entries` counts the times handle_job was entered for the
      submitted job, `made` is what that entry produced. */
  predicate Contract(a: Answer, entries: nat, made: Option<Outcome>, dead: bool) {
    match a
    case Delivered(o) => entries == 1 && made == Some(o)
    case Unpicklable(_) => entries == 0
    case Retry => entries == 0 && dead
    case Raised(why) => entries <= 1 && dead && (why.BadLoad? ==> entries == 1)
  }

  predicate InUserCode(w: Worker) {
    w.Init? || w.Run? || w.Retire?
  }

  // ------------------------------------------------------------------- steps

  /** A write call may move k bytes: all it was asked to write, or fewer if it was asked for
      more than PIPE_BUF, and never more than the pipe has room for. */
  predicate Writable(c: Config, p: Pipe, m: Payload, k: nat) {
    var piece := Piece(|m|, Unwritten(p));
    1 <= k <= piece && (k == piece || piece > PIPE_BUF) && InFlight(p) + k <= c.capacity
  }

  predicate CallCan(c: Config, s: State, l: Call)
  {
    match l
    case Submit(job) => s.main.Idle?
    case SubmitUnpicklable(_) => s.main.Idle?
    case Return => s.main.Done? && (s.main.answer.Delivered? || s.main.answer.Unpicklable?)
    case Shutdown => s.main.Idle?
    case ShutKill => s.main.Shut?
    case SubmitShut(_) => s.main.Shut?
  }

  predicate MainCan(c: Config, s: State, l: MainStep)
  {
    match l
    case Write(k) => s.main.Send? && s.readOpen && Writable(c, s.jobs, s.job, k)
    case WriteFails => s.main.Send? && !s.readOpen
    case Read(k) => s.main.Receive? && 1 <= k <= InFlight(s.results) && k <= Wants(s.results)
    case ReadEof => s.main.Receive? && InFlight(s.results) == 0 && !s.writeOpen && Wants(s.results) > 0
    case Load => s.main.Receive? && Wants(s.results) == 0 && Heard(s.results).Message?
    case LoadFails => s.main.Receive? && Wants(s.results) == 0 && Heard(s.results).Message?
                      && c.loads(Heard(s.results).payload) != Some(NoneValue)
    case DropClose => s.main.Drop?
    case Reaped => (s.main.AwaitExit? || s.main.AwaitBroken?) && s.worker.Dead?
    case Kill => s.main.Fail?
    case KillReaped => s.main.Killed? && s.worker.Dead?
  }

  predicate LoopCan(c: Config, s: State, l: LoopStep)
  {
    match l
    case PollReady => s.worker.Poll? && (InFlight(s.jobs) > 0 || !s.mainOpen)
    case Take(k) => s.worker.Recv? && 1 <= k <= InFlight(s.jobs) && k <= Wants(s.jobs)
    case TakeEof => s.worker.Recv? && InFlight(s.jobs) == 0 && !s.mainOpen && Wants(s.jobs) > 0
    case Start => s.worker.Recv? && Wants(s.jobs) == 0 && Heard(s.jobs).Message?
    case Put(k) => s.worker.Reply? && s.made.Some? && Writable(c, s.results, c.dumps(Result(s.made.value)), k)
  }

  predicate ExitCan(c: Config, s: State, l: ExitStep)
  {
    match l
    case CloseReadEnd => s.worker.CloseRecv?
    case PutSentinel => s.worker.Sentinel? && InFlight(s.results) + |SentinelFrame(c)| <= c.capacity
    case CloseWriteEnd => s.worker.CloseSend?
    case GraceCloseWrite => s.worker.GraceSend?
    case GraceCloseRead => s.worker.GraceRecv?
    case BadCloseWrite => s.worker.BadSend?
    case DrainTake(k) => s.worker.Drain? && 1 <= k <= InFlight(s.jobs) && k <= Wants(s.jobs)
    case DrainEof(_) => s.worker.Drain? && InFlight(s.jobs) == 0 && !s.mainOpen
    case Exit => s.worker.Leaving?
    case Die => s.killed && !s.worker.Dead?
  }

  predicate UserCan(c: Config, s: State, l: UserStep)
  {
    match l
    case InitOk => s.worker.Init?
    case InitRaises(_) => s.worker.Init?
    case JobEnds(_) => s.worker.Run?
    case JobUndumpable(_) => s.worker.Run?
    case RetireKeeps => s.worker.Retire?
    case RetireQuits => s.worker.Retire?
    case RetireRaises(_) => s.worker.Retire?
  }

  predicate WorldCan(c: Config, s: State, l: WorldStep)
  {
    match l
    case PollExpires => s.worker.Poll? && InFlight(s.jobs) == 0 && s.mainOpen
    case Cancel => s.main.Send? || s.main.Receive?
    case Perish(_) => !s.worker.Dead?
  }

  function LeaveLoop(c: Config, s: State): State {
    s.(worker := if c.eager then CloseRecv else Sentinel, path := Clean)
  }

  function UserRaises(s: State, e: UserExc): State {
    s.(worker := if e.Other? then BadSend else GraceSend, path := if e.Other? then Bad else UserShut)
  }

  function Ended(s: State, code: int, cause: Cause): State {
    s.(worker := Dead(code, cause), readOpen := false, writeOpen := false)
  }

  function Loaded(c: Config, s: State): State
    requires Heard(s.results).Message?
  {
    var parcel := c.loads(Heard(s.results).payload);
    var isNone, isResult := parcel == Some(NoneValue), parcel.Some? && parcel.value.Result?;
    s.(main := if isNone then AwaitExit else if isResult then Done(Delivered(parcel.value.outcome)) else Fail(BadLoad),
       results := if parcel.Some? then Turn(s.results) else s.results,
       noneDue := s.noneDue && !isNone,
       replyDue := s.replyDue && !isResult)
  }

  function CallDo(c: Config, s: State, l: Call): State
    requires CallCan(c, s, l)
  {
    match l
    case Submit(job) =>
      s.(main := Send, jobs := Queue(s.jobs, Frame(job)), job := job, taken := false, entries := 0, made := None)
    case SubmitUnpicklable(exc) => s.(main := Done(Unpicklable(exc)), entries := 0, made := None)
    case Return => s.(main := Idle)
    case Shutdown => s.(main := Shut, mainOpen := false)
    case ShutKill => s.(killed := s.killed || !s.worker.Dead?)
    case SubmitShut(job) => s.(main := Fail(PipeShut), job := job, entries := 0, made := None)
  }

  function MainDo(c: Config, s: State, l: MainStep): State
    requires MainCan(c, s, l)
  {
    match l
    case Write(k) =>
      s.(jobs := Push(s.jobs, k), main := if k == Unwritten(s.jobs) then Receive else Send)
    case WriteFails => s.(main := AwaitExit)
    case Read(k) => s.(results := Pull(s.results, k))
    case ReadEof => s.(main := if Heard(s.results).EndOfChannel? then Drop else Fail(TornReply))
    case Load => Loaded(c, s)
    case LoadFails => s.(main := Fail(BadLoad))
    case DropClose => s.(main := AwaitBroken, mainOpen := false)
    case Reaped => s.(main := if s.main.AwaitExit? then Done(Retry) else Fail(BrokenWorker))
    case Kill => s.(main := Killed(s.main.exc), killed := s.killed || !s.worker.Dead?)
    case KillReaped => s.(main := Done(Raised(s.main.exc)))
  }

  function LoopDo(c: Config, s: State, l: LoopStep): State
    requires LoopCan(c, s, l)
  {
    match l
    case PollReady => s.(worker := Recv)
    case Take(k) => s.(jobs := Pull(s.jobs, k))
    case TakeEof =>
      var shut := Heard(s.jobs).EndOfChannel?;
      s.(worker := if shut then GraceSend else BadSend, path := if shut then PipeClosed else Bad)
    case Start =>
      s.(worker := Run(Heard(s.jobs).payload), jobs := Turn(s.jobs), taken := true, entries := s.entries + 1)
    case Put(k) =>
      s.(results := Push(s.results, k), worker := if k == Unwritten(s.results) then Retire else Reply)
  }

  function ExitDo(c: Config, s: State, l: ExitStep): State
    requires ExitCan(c, s, l)
  {
    match l
    case CloseReadEnd => s.(worker := Sentinel, readOpen := false)
    case PutSentinel =>
      var p := Queue(s.results, SentinelFrame(c));
      s.(worker := CloseSend, results := Push(p, |SentinelFrame(c)|), noneDue := true)
    case CloseWriteEnd => s.(worker := Leaving(0), writeOpen := false)
    case GraceCloseWrite => s.(worker := GraceRecv, writeOpen := false)
    case GraceCloseRead => s.(worker := Leaving(0), readOpen := false)
    case BadCloseWrite => s.(worker := Drain, writeOpen := false, jobs := Turn(s.jobs))
    case DrainTake(k) =>
      var p := Pull(s.jobs, k);
      s.(jobs := if Wants(p) == 0 then Turn(p) else p, taken := s.taken || Wants(p) == 0)
    case DrainEof(code) => s.(worker := Leaving(code))
    case Exit => Ended(s, s.worker.code, Own)
    case Die => Ended(s, -9, ByKill)
  }

  function UserDo(c: Config, s: State, l: UserStep): State
    requires UserCan(c, s, l)
  {
    match l
    case InitOk => s.(worker := Poll)
    case InitRaises(e) => UserRaises(s, e)
    case JobEnds(o) =>
      s.(worker := Reply, results := Queue(s.results, ReplyFrame(c, o)), made := Some(o), replyDue := true)
    case JobUndumpable(e) => UserRaises(s, e)
    case RetireKeeps => s.(worker := Poll)
    case RetireQuits => LeaveLoop(c, s)
    case RetireRaises(e) => UserRaises(s, e)
  }

  function WorldDo(c: Config, s: State, l: WorldStep): State
    requires WorldCan(c, s, l)
  {
    match l
    case PollExpires => LeaveLoop(c, s)
    case Cancel => s.(main := Fail(Cancelled))
    case Perish(code) => Ended(s, code, Outside)
  }

  predicate Enabled(c: Config, s: State, l: Label)
  {
    match l
    case Calls(k) => CallCan(c, s, k)
    case Mains(m) => MainCan(c, s, m)
    case Loops(w) => LoopCan(c, s, w)
    case Exits(w) => ExitCan(c, s, w)
    case Users(u) => UserCan(c, s, u)
    case Worlds(x) => WorldCan(c, s, x)
  }

  function Apply(c: Config, s: State, l: Label): State
    requires Enabled(c, s, l)
  {
    match l
    case Calls(k) => CallDo(c, s, k)
    case Mains(m) => MainDo(c, s, m)
    case Loops(w) => LoopDo(c, s, w)
    case Exits(w) => ExitDo(c, s, w)
    case Users(u) => UserDo(c, s, u)
    case Worlds(x) => WorldDo(c, s, x)
  }

  // --------------------------------------------------------------- invariant

  predicate Calm(m: Main) {
    m.Idle? || m.Shut? || (m.Done? && (m.answer.Delivered? || m.answer.Unpicklable?))
  }

  /** A submission is in progress. */
  predicate Busy(m: Main) {
    !m.Idle? && !m.Shut? && !m.Done?
  }

  /** No submission is in progress, and a worker that will not be used again is dead. */
  predicate Unused(s: State) {
    s.main.Idle? || s.main.Shut? || (s.main.Done? && s.worker.Dead?)
  }

  /** Main is at, or past, the handler for this exception. */
  predicate Failing(m: Main, e: Exc) {
    ((m.Fail? || m.Killed?) && m.exc == e) || (m.Done? && m.answer.Raised? && m.answer.why == e)
  }

  predicate Breaking(m: Main) {
    m.Drop? || m.AwaitBroken? || Failing(m, BrokenWorker)
  }

  predicate Retrying(m: Main) {
    m.AwaitExit? || (m.Done? && m.answer.Retry?)
  }

  predicate Violent(w: Worker) {
    w.Dead? && !w.cause.Own?
  }

  predicate DiedOutside(w: Worker) {
    w.Dead? && w.cause.Outside?
  }

  predicate LoopPhase(w: Worker) {
    w.Init? || w.Poll? || w.Recv? || w.Run? || w.Reply? || w.Retire?
  }

  /** The sentinel write, if this worker makes one, is behind it. */
  predicate PastSentinel(w: Worker) {
    w.CloseSend? || w.Leaving? || w.Dead?
  }

  /** Which pipe ends the worker still holds, and which way it left its loop. */
  predicate WorkerInv(c: Config, s: State) {
    var w := s.worker;
    && s.writeOpen == (LoopPhase(w) || w.CloseRecv? || w.Sentinel? || w.CloseSend? || w.GraceSend? || w.BadSend?)
    && s.readOpen == (
         || LoopPhase(w) || w.CloseRecv? || w.GraceSend? || w.GraceRecv? || w.BadSend? || w.Drain?
         || ((w.Sentinel? || w.CloseSend?) && !c.eager)
         || (w.Leaving? && (s.path.Bad? || (s.path.Clean? && !c.eager))))
    && (LoopPhase(w) ==> s.path.Looping?)
    && (w.CloseRecv? ==> c.eager)
    && (w.CloseRecv? || w.Sentinel? || w.CloseSend? ==> s.path.Clean?)
    && (w.GraceSend? || w.GraceRecv? ==> s.path.PipeClosed? || s.path.UserShut?)
    && (w.BadSend? || w.Drain? ==> s.path.Bad?)
    && (w.Leaving? || (w.Dead? && w.cause.Own?) ==>
          !s.path.Looping? && (s.path.Bad? || w.code == 0) && (s.path.Bad? ==> !s.mainOpen))
    && (w.Dead? && w.cause.ByKill? ==> s.killed && w.code == -9)
  }

  predicate MainInv(s: State) {
    var m, w := s.main, s.worker;
    && s.mainOpen == !(m.Shut? || m.AwaitBroken? || Failing(m, BrokenWorker) || Failing(m, PipeShut))
    && (s.killed ==> m.Killed? || m.Shut? || Failing(m, PipeShut) || (m.Done? && m.answer.Raised?))
    && (s.path.PipeClosed? ==> m.Shut? || Failing(m, PipeShut))
    && (Breaking(m) ==> !s.writeOpen)
    && (Failing(m, BrokenWorker) || (m.Done? && (m.answer.Retry? || m.answer.Raised?)) ==> w.Dead?)
    && (m.Killed? ==> s.killed || w.Dead?)
    && (m.AwaitExit? ==> s.worker.Sentinel? || PastSentinel(s.worker))
    && (m.AwaitExit? && s.worker.Sentinel? ==> InFlight(s.results) == 0)
  }

  /** The job pipe carries exactly the job of the latest submission, from the worker's
      mark on, until the worker has consumed it; then it carries nothing. */
  predicate JobInv(s: State) {
    var m, w, p := s.main, s.worker, s.jobs;
    && p.stream[p.mark..] == (if s.taken then [] else Frame(s.job))
    && (!w.Recv? && !w.Drain? && !w.Dead? && !w.Leaving? ==> p.read == p.mark)
    && (m.Receive? || m.Drop? || m.AwaitBroken? ==> Unwritten(p) == 0)
    && (m.Send? ==> !s.taken && Unwritten(p) > 0)
    && (Calm(m) || Failing(m, PipeShut) ==> s.taken)
    && (w.Recv? ==> !s.taken || !s.mainOpen)
    && (w.Drain? && !s.taken ==> p.read < |p.stream|)
    && s.entries <= 1
    && (s.entries == 1 ==> s.taken)
    && (s.made.Some? ==> s.entries == 1)
    && (w.Run? ==> s.entries == 1 && s.made.None? && w.job == s.job)
    && (w.Reply? ==> s.entries == 1 && s.made.Some?)
    && (w.Run? || w.Reply? ==> m.Receive? || ((m.Fail? || m.Killed?) && !Failing(m, PipeShut)))
    && (m.Receive? && s.entries == 0 && s.taken ==> s.path.Bad?)
    && (m.Receive? && s.entries == 1 && s.made.None? ==> w.Run? || s.path.Bad? || s.path.UserShut? || (Violent(w) && s.path.Looping?))
  }

  /** The result pipe carries, from main's mark on, exactly the reply main is owed and then
      the sentinel, if there is one. */
  predicate ReplyInv(c: Config, s: State)
  {
    var m, w, p := s.main, s.worker, s.results;
    && InFlight(s.jobs) <= c.capacity
    && InFlight(p) <= c.capacity
    && (s.replyDue ==> s.made.Some?)
    && p.stream[p.mark..] == DueFrames(c, s)
    && (Calm(m) || m.Send? ==> !s.replyDue && p.read == p.mark)
    && (m.Receive? && s.made.Some? ==> s.replyDue)
    && (s.replyDue ==> p.read <= p.mark + |ReplyFrame(c, s.made.value)|)
    && (s.replyDue && |ReplyFrame(c, s.made.value)| <= PIPE_BUF ==>
          Unwritten(p) == 0 || Unwritten(p) == |ReplyFrame(c, s.made.value)|)
    && (w.Reply? ==> s.replyDue && Unwritten(p) > 0)
    && (Unwritten(p) > 0 ==> s.replyDue && !s.noneDue && (w.Reply? || Violent(w)))
    && (s.noneDue ==> s.path.Clean? && PastSentinel(w))
    && ((Calm(m) || m.Send? || m.Receive?) && s.path.Clean? && PastSentinel(w) && !Violent(w) ==> s.noneDue)
  }

  function DueFrames(c: Config, s: State): Bytes
    requires (s.replyDue ==> s.made.Some?)
  {
    (if s.replyDue then ReplyFrame(c, s.made.value) else []) + (if s.noneDue then SentinelFrame(c) else [])
  }

  /** What each way of ending says about the job and the worker. */
  predicate AnswerInv(c: Config, s: State) {
    var m, w := s.main, s.worker;
    && (Retrying(m) ==> s.entries == 0 && (s.path.Clean? || s.path.UserShut? || DiedOutside(w)))
    && (Breaking(m) ==> s.path.Bad? || s.path.UserShut? || DiedOutside(w))
    && (Failing(m, TornReply) ==> DiedOutside(w) && s.made.Some? && |ReplyFrame(c, s.made.value)| > PIPE_BUF)
    && (Failing(m, BadLoad) ==> s.entries == 1)
    && (m.Done? && m.answer.Delivered? ==> s.entries == 1 && s.made == Some(m.answer.outcome))
    && (m.Done? && m.answer.Unpicklable? ==> s.entries == 0)
  }

  predicate Inv(c: Config, s: State)
  {
    WorkerInv(c, s) && MainInv(s) && JobInv(s) && ReplyInv(c, s) && AnswerInv(c, s)
  }

  lemma FreshInv(c: Config)
    ensures Inv(c, Fresh())
  {
  }
}
