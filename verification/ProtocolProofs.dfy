/** Every step of the protocol keeps the invariant. */
module ProtocolProofs {
  import opened Options
  import opened Framing
  import opened Protocol

  // ------------------------------------------------- reading a framed message

  /** A pipe whose stream, from the reader's mark on, is a frame and then `rest`: the
      reader wants more exactly until the end of the frame, and then has its message. */
  lemma ReadingFrame(p: Pipe, m: Payload, rest: Bytes)
    requires p.stream[p.mark..] == Frame(m) + rest && p.read <= p.mark + |Frame(m)|
    ensures Wants(p) <= p.mark + |Frame(m)| - p.read
    ensures Wants(p) == 0 <==> p.read == p.mark + |Frame(m)|
    ensures Wants(p) == 0 ==> Heard(p) == Message(m, [])
    ensures Wants(p) != 0 ==> Heard(p).EndOfChannel? || Heard(p).Truncated?
  {
    var k := p.read - p.mark;
    assert Current(p) == Frame(m)[..k] by {
      assert Current(p) == p.stream[p.mark..][..k];
    }
    NeedWithinFrame(m, k);
    if k < |Frame(m)| {
      CutDecodes(m, k);
    } else {
      FrameDecodes(m, []);
      assert Frame(m)[..k] == Frame(m) + [];
    }
  }

  lemma NothingRead(p: Pipe)
    requires p.read == p.mark
    ensures Wants(p) == 4 && Heard(p) == EndOfChannel
  {
    assert Current(p) == [];
  }

  lemma Turned(p: Pipe, f: Bytes, rest: Bytes)
    requires p.stream[p.mark..] == f + rest && p.read == p.mark + |f|
    ensures p.stream[p.read..] == rest
  {
    assert p.stream[p.read..] == p.stream[p.mark..][|f|..];
  }

  // --------------------------------------------------------------- each step

  // One lemma for each way in which a step changes the state; the lemmas after them say
  // which step does what.

  function Submitted(s: State, job: Payload): State {
    s.(main := Send, jobs := Queue(s.jobs, Frame(job)), job := job, taken := false, entries := 0, made := None)
  }

  lemma SubmitKeepsJobs(s: State, job: Payload)
    requires JobInv(s) && s.main.Idle?
    ensures JobInv(Submitted(s, job))
  {
    assert Submitted(s, job).jobs.stream[s.jobs.mark..] == s.jobs.stream[s.jobs.mark..] + Frame(job);
  }

  lemma SubmitKeepsReplies(c: Config, s: State, job: Payload)
    requires ReplyInv(c, s) && s.main.Idle?
    ensures ReplyInv(c, Submitted(s, job))
  {
  }

  lemma SubmitKeepsInv(c: Config, s: State, job: Payload)
    requires Sane(c) && Inv(c, s) && s.main.Idle?
    ensures Inv(c, Submitted(s, job))
  {
    SubmitKeepsJobs(s, job);
    SubmitKeepsReplies(c, s, job);
  }

  lemma UnpicklableKeepsInv(c: Config, s: State, exc: Bytes)
    requires Sane(c) && Inv(c, s) && s.main.Idle?
    ensures Inv(c, s.(main := Done(Unpicklable(exc)), entries := 0, made := None))
  {
  }

  lemma ReturnKeepsInv(c: Config, s: State)
    requires Sane(c) && Inv(c, s) && s.main.Done? && (s.main.answer.Delivered? || s.main.answer.Unpicklable?)
    ensures Inv(c, s.(main := Idle))
  {
  }

  lemma ShutdownKeepsInv(c: Config, s: State)
    requires Sane(c) && Inv(c, s) && s.main.Idle?
    ensures Inv(c, s.(main := Shut, mainOpen := false))
  {
  }

  lemma ShutKillKeepsInv(c: Config, s: State)
    requires Sane(c) && Inv(c, s) && s.main.Shut?
    ensures Inv(c, s.(killed := s.killed || !s.worker.Dead?))
  {
  }

  lemma SubmitShutKeepsInv(c: Config, s: State, job: Payload)
    requires Sane(c) && Inv(c, s) && s.main.Shut?
    ensures Inv(c, s.(main := Fail(PipeShut), job := job, entries := 0, made := None))
  {
  }

  lemma CallKeepsInv(c: Config, s: State, l: Call)
    requires Sane(c) && Inv(c, s) && CallCan(c, s, l)
    ensures Inv(c, CallDo(c, s, l))
  {
    match l
    case Submit(job) => SubmitKeepsInv(c, s, job);
    case SubmitUnpicklable(exc) => UnpicklableKeepsInv(c, s, exc);
    case Return => ReturnKeepsInv(c, s);
    case Shutdown => ShutdownKeepsInv(c, s);
    case ShutKill => ShutKillKeepsInv(c, s);
    case SubmitShut(job) => SubmitShutKeepsInv(c, s, job);
  }

  /** init and retire return, and the worker polls again. */
  lemma GoOnKeepsInv(c: Config, s: State)
    requires Sane(c) && Inv(c, s) && (s.worker.Init? || s.worker.Retire?)
    ensures Inv(c, s.(worker := Poll))
  {
  }

  lemma LeaveLoopKeepsInv(c: Config, s: State, w: Worker)
    requires Sane(c) && Inv(c, s) && (s.worker.Retire? || s.worker.Poll?)
    requires w == if c.eager then CloseRecv else Sentinel
    ensures Inv(c, s.(worker := w, path := Clean))
  {
  }

  lemma JobEndKeepsInv(c: Config, s: State, o: Outcome)
    requires Sane(c) && Inv(c, s) && s.worker.Run?
    ensures Inv(c, s.(worker := Reply, results := Queue(s.results, ReplyFrame(c, o)), made := Some(o), replyDue := true))
  {
  }

  lemma BreakKeepsInv(c: Config, s: State)
    requires Sane(c) && Inv(c, s) && (s.worker.Init? || s.worker.Run? || s.worker.Retire?)
    ensures Inv(c, s.(worker := BadSend, path := Bad))
  {
  }

  lemma LookalikeKeepsInv(c: Config, s: State)
    requires Sane(c) && Inv(c, s) && (s.worker.Init? || s.worker.Run? || s.worker.Retire?)
    ensures Inv(c, s.(worker := GraceSend, path := UserShut))
  {
  }

  lemma RaiseKeepsInv(c: Config, s: State, e: UserExc)
    requires Sane(c) && Inv(c, s) && (s.worker.Init? || s.worker.Run? || s.worker.Retire?)
    ensures Inv(c, UserRaises(s, e))
  {
    if e.Other? {
      BreakKeepsInv(c, s);
    } else {
      LookalikeKeepsInv(c, s);
    }
  }

  lemma CancelKeepsInv(c: Config, s: State)
    requires Sane(c) && Inv(c, s) && (s.main.Send? || s.main.Receive?)
    ensures Inv(c, s.(main := Fail(Cancelled)))
  {
  }

  /** However the process ends. */
  lemma EndKeepsInv(c: Config, s: State, code: int, cause: Cause)
    requires Sane(c) && Inv(c, s)
    requires match cause
             case Own => s.worker.Leaving? && code == s.worker.code
             case ByKill => s.killed && code == -9 && !s.worker.Dead?
             case Outside => !s.worker.Dead?
    ensures Inv(c, s.(worker := Dead(code, cause), readOpen := false, writeOpen := false))
  {
  }

  lemma ReadyKeepsInv(c: Config, s: State)
    requires Sane(c) && Inv(c, s) && s.worker.Poll? && (InFlight(s.jobs) > 0 || !s.mainOpen)
    ensures Inv(c, s.(worker := Recv))
  {
  }

  lemma TakeKeepsInv(c: Config, s: State, k: nat)
    requires Sane(c) && Inv(c, s) && s.worker.Recv? && k <= InFlight(s.jobs)
    ensures Inv(c, s.(jobs := Pull(s.jobs, k)))
  {
  }

  lemma TakeEofKeepsInv(c: Config, s: State, shut: bool)
    requires Sane(c) && Inv(c, s) && s.worker.Recv? && !s.mainOpen
    ensures Inv(c, s.(worker := if shut then GraceSend else BadSend, path := if shut then PipeClosed else Bad))
  {
  }

  lemma PutKeepsInv(c: Config, s: State, k: nat)
    requires Sane(c) && Inv(c, s) && s.worker.Reply? && Writable(c, s.results, c.dumps(Result(s.made.value)), k)
    ensures Inv(c, s.(results := Push(s.results, k), worker := if k == Unwritten(s.results) then Retire else Reply))
  {
  }

  lemma StartKeepsInv(c: Config, s: State)
    requires Sane(c) && Inv(c, s) && LoopCan(c, s, Start)
    ensures Inv(c, LoopDo(c, s, Start))
  {
    if s.taken {
      NothingRead(s.jobs);
    } else {
      ReadingFrame(s.jobs, s.job, []);
      Turned(s.jobs, Frame(s.job), []);
    }
  }

  lemma CloseReadKeepsInv(c: Config, s: State)
    requires Sane(c) && Inv(c, s) && s.worker.CloseRecv?
    ensures Inv(c, s.(worker := Sentinel, readOpen := false))
  {
  }

  lemma CloseWriteKeepsInv(c: Config, s: State)
    requires Sane(c) && Inv(c, s) && s.worker.CloseSend?
    ensures Inv(c, s.(worker := Leaving(0), writeOpen := false))
  {
  }

  lemma GraceWriteKeepsInv(c: Config, s: State)
    requires Sane(c) && Inv(c, s) && s.worker.GraceSend?
    ensures Inv(c, s.(worker := GraceRecv, writeOpen := false))
  {
  }

  lemma GraceReadKeepsInv(c: Config, s: State)
    requires Sane(c) && Inv(c, s) && s.worker.GraceRecv?
    ensures Inv(c, s.(worker := Leaving(0), readOpen := false))
  {
  }

  lemma BadWriteKeepsInv(c: Config, s: State)
    requires Sane(c) && Inv(c, s) && s.worker.BadSend?
    ensures Inv(c, s.(worker := Drain, writeOpen := false, jobs := Turn(s.jobs)))
  {
  }

  lemma DrainEofKeepsInv(c: Config, s: State, code: int)
    requires Sane(c) && Inv(c, s) && s.worker.Drain? && !s.mainOpen
    ensures Inv(c, s.(worker := Leaving(code)))
  {
  }

  lemma DrainPartKeepsInv(c: Config, s: State, k: nat)
    requires Sane(c) && Inv(c, s) && s.worker.Drain? && k <= InFlight(s.jobs)
    requires !s.taken ==> s.jobs.read + k < |s.jobs.stream|
    ensures Inv(c, s.(jobs := Pull(s.jobs, k)))
  {
  }

  lemma DrainAllKeepsInv(c: Config, s: State, k: nat)
    requires Sane(c) && Inv(c, s) && s.worker.Drain? && k <= InFlight(s.jobs)
    requires s.jobs.stream[s.jobs.read + k..] == []
    ensures Inv(c, s.(jobs := Turn(Pull(s.jobs, k)), taken := true))
  {
  }

  lemma DrainTakeKeepsInv(c: Config, s: State, k: nat)
    requires Sane(c) && Inv(c, s) && ExitCan(c, s, DrainTake(k))
    ensures Inv(c, ExitDo(c, s, DrainTake(k)))
  {
    var p := Pull(s.jobs, k);
    ReadingFrame(p, s.job, []);
    if Wants(p) == 0 {
      Turned(p, Frame(s.job), []);
      DrainAllKeepsInv(c, s, k);
    } else {
      DrainPartKeepsInv(c, s, k);
    }
  }

  function WithSentinel(c: Config, s: State): State
    requires Unwritten(s.results) == 0
  {
    s.(worker := CloseSend, results := Push(Queue(s.results, SentinelFrame(c)), |SentinelFrame(c)|), noneDue := true)
  }

  lemma Appended(p: Pipe, data: Bytes)
    ensures Queue(p, data).stream[p.mark..] == p.stream[p.mark..] + data
    ensures Unwritten(p) == 0 ==>
              var q := Push(Queue(p, data), |data|);
              Unwritten(q) == 0 && InFlight(q) == InFlight(p) + |data| && q.read == p.read && q.mark == p.mark
  {
  }

  lemma SentinelKeepsReplies(c: Config, s: State)
    requires ReplyInv(c, s) && WorkerInv(c, s) && s.worker.Sentinel? && InFlight(s.results) + |SentinelFrame(c)| <= c.capacity
    ensures Unwritten(s.results) == 0 && ReplyInv(c, WithSentinel(c, s))
  {
    Appended(s.results, SentinelFrame(c));
    assert DueFrames(c, WithSentinel(c, s)) == DueFrames(c, s) + SentinelFrame(c);
  }

  lemma PutSentinelKeepsInv(c: Config, s: State)
    requires Sane(c) && Inv(c, s) && s.worker.Sentinel? && InFlight(s.results) + |SentinelFrame(c)| <= c.capacity
    ensures Unwritten(s.results) == 0 && Inv(c, WithSentinel(c, s))
  {
    SentinelKeepsReplies(c, s);
  }

  lemma WriteKeepsInv(c: Config, s: State, k: nat)
    requires Sane(c) && Inv(c, s) && s.main.Send? && k <= Unwritten(s.jobs) && InFlight(s.jobs) + k <= c.capacity
    ensures Inv(c, s.(jobs := Push(s.jobs, k), main := if k == Unwritten(s.jobs) then Receive else Send))
  {
  }

  lemma WriteFailsKeepsInv(c: Config, s: State)
    requires Sane(c) && Inv(c, s) && s.main.Send? && !s.readOpen
    ensures Inv(c, s.(main := AwaitExit))
  {
  }

  lemma DropKeepsInv(c: Config, s: State)
    requires Sane(c) && Inv(c, s) && s.main.Drop?
    ensures Inv(c, s.(main := AwaitBroken, mainOpen := false))
  {
  }

  lemma ReapedKeepsInv(c: Config, s: State, m: Main)
    requires Sane(c) && Inv(c, s) && s.worker.Dead?
    requires (s.main.AwaitExit? && m == Done(Retry)) || (s.main.AwaitBroken? && m == Fail(BrokenWorker))
    ensures Inv(c, s.(main := m))
  {
  }

  lemma KillKeepsInv(c: Config, s: State)
    requires Sane(c) && Inv(c, s) && s.main.Fail?
    ensures Inv(c, s.(main := Killed(s.main.exc), killed := s.killed || !s.worker.Dead?))
  {
  }

  lemma KillReapedKeepsInv(c: Config, s: State)
    requires Sane(c) && Inv(c, s) && s.main.Killed? && s.worker.Dead?
    ensures Inv(c, s.(main := Done(Raised(s.main.exc))))
  {
  }

  /** The parcel that begins at main's mark, when one is due. */
  function Due(c: Config, s: State): Payload
    requires s.replyDue ==> s.made.Some?
  {
    c.dumps(if s.replyDue then Result(s.made.value) else NoneValue)
  }

  /** What main can have read: nothing when nothing is due, otherwise some of the parcel's
      frame, and the parcel itself exactly when it wants no more. */
  ghost predicate HearsDue(c: Config, s: State)
    requires s.replyDue ==> s.made.Some?
  {
    var p := s.results;
    if s.replyDue || s.noneDue then
      && (Wants(p) == 0 ==>
            && Heard(p) == Message(Due(c, s), [])
            && p.read == p.mark + |Frame(Due(c, s))|
            && p.stream[p.read..] == if s.replyDue && s.noneDue then SentinelFrame(c) else [])
      && (Wants(p) != 0 ==> p.read < p.mark + |Frame(Due(c, s))|)
    else Wants(p) > 0 && Heard(p) == EndOfChannel
  }

  lemma MainHearsDue(c: Config, s: State)
    requires Sane(c) && ReplyInv(c, s)
    ensures HearsDue(c, s)
  {
    var p := s.results;
    if s.replyDue || s.noneDue {
      var rest := if s.replyDue && s.noneDue then SentinelFrame(c) else [];
      assert DueFrames(c, s) == Frame(Due(c, s)) + rest;
      ReadingFrame(p, Due(c, s), rest);
      if Wants(p) == 0 {
        Turned(p, Frame(Due(c, s)), rest);
      }
    } else {
      NothingRead(p);
    }
  }

  lemma ReadKeepsInv(c: Config, s: State, k: nat)
    requires Sane(c) && Inv(c, s) && MainCan(c, s, Read(k))
    ensures Inv(c, MainDo(c, s, Read(k)))
  {
    if s.replyDue {
      ReadingFrame(s.results, Due(c, s), if s.noneDue then SentinelFrame(c) else []);
    }
  }

  lemma ReadEofKeepsInv(c: Config, s: State)
    requires Sane(c) && Inv(c, s) && MainCan(c, s, ReadEof)
    ensures Inv(c, MainDo(c, s, ReadEof))
  {
    MainHearsDue(c, s);
  }

  lemma DeliveryKeepsInv(c: Config, s: State)
    requires Sane(c) && Inv(c, s) && s.main.Receive? && s.replyDue
    requires s.results.read == s.results.mark + |Frame(Due(c, s))|
    requires s.results.stream[s.results.read..] == if s.noneDue then SentinelFrame(c) else []
    ensures Inv(c, s.(main := Done(Delivered(s.made.value)), results := Turn(s.results), replyDue := false))
  {
  }

  lemma SentinelKeepsInv(c: Config, s: State)
    requires Sane(c) && Inv(c, s) && s.main.Receive? && !s.replyDue && s.noneDue
    requires s.results.read == s.results.mark + |Frame(Due(c, s))|
    requires s.results.stream[s.results.read..] == []
    ensures Inv(c, s.(main := AwaitExit, results := Turn(s.results), noneDue := false))
  {
  }

  lemma LoadKeepsInv(c: Config, s: State)
    requires Sane(c) && Inv(c, s) && MainCan(c, s, Load)
    ensures Inv(c, MainDo(c, s, Load))
  {
    MainHearsDue(c, s);
    assert c.loads(Due(c, s)) == Some(if s.replyDue then Result(s.made.value) else NoneValue);
    if s.replyDue {
      DeliveryKeepsInv(c, s);
    } else {
      SentinelKeepsInv(c, s);
    }
  }

  lemma LoadFailsKeepsInv(c: Config, s: State)
    requires Sane(c) && Inv(c, s) && MainCan(c, s, LoadFails)
    ensures Inv(c, MainDo(c, s, LoadFails))
  {
    MainHearsDue(c, s);
  }

  lemma MainKeepsInv(c: Config, s: State, l: MainStep)
    requires Sane(c) && Inv(c, s) && MainCan(c, s, l)
    ensures Inv(c, MainDo(c, s, l))
  {
    match l
    case Write(k) => WriteKeepsInv(c, s, k);
    case WriteFails => WriteFailsKeepsInv(c, s);
    case Read(k) => ReadKeepsInv(c, s, k);
    case ReadEof => ReadEofKeepsInv(c, s);
    case Load => LoadKeepsInv(c, s);
    case LoadFails => LoadFailsKeepsInv(c, s);
    case DropClose => DropKeepsInv(c, s);
    case Reaped => ReapedKeepsInv(c, s, if s.main.AwaitExit? then Done(Retry) else Fail(BrokenWorker));
    case Kill => KillKeepsInv(c, s);
    case KillReaped => KillReapedKeepsInv(c, s);
  }

  lemma LoopKeepsInv(c: Config, s: State, l: LoopStep)
    requires Sane(c) && Inv(c, s) && LoopCan(c, s, l)
    ensures Inv(c, LoopDo(c, s, l))
  {
    match l
    case PollReady => ReadyKeepsInv(c, s);
    case Take(k) => TakeKeepsInv(c, s, k);
    case TakeEof => TakeEofKeepsInv(c, s, Heard(s.jobs).EndOfChannel?);
    case Start => StartKeepsInv(c, s);
    case Put(k) => PutKeepsInv(c, s, k);
  }

  lemma ExitKeepsInv(c: Config, s: State, l: ExitStep)
    requires Sane(c) && Inv(c, s) && ExitCan(c, s, l)
    ensures Inv(c, ExitDo(c, s, l))
  {
    match l
    case CloseReadEnd => CloseReadKeepsInv(c, s);
    case PutSentinel => PutSentinelKeepsInv(c, s);
    case CloseWriteEnd => CloseWriteKeepsInv(c, s);
    case GraceCloseWrite => GraceWriteKeepsInv(c, s);
    case GraceCloseRead => GraceReadKeepsInv(c, s);
    case BadCloseWrite => BadWriteKeepsInv(c, s);
    case DrainTake(k) => DrainTakeKeepsInv(c, s, k);
    case DrainEof(code) => DrainEofKeepsInv(c, s, code);
    case Exit => EndKeepsInv(c, s, s.worker.code, Own);
    case Die => EndKeepsInv(c, s, -9, ByKill);
  }

  lemma UserKeepsInv(c: Config, s: State, l: UserStep)
    requires Sane(c) && Inv(c, s) && UserCan(c, s, l)
    ensures Inv(c, UserDo(c, s, l))
  {
    match l
    case InitOk => GoOnKeepsInv(c, s);
    case InitRaises(e) => RaiseKeepsInv(c, s, e);
    case JobEnds(o) => JobEndKeepsInv(c, s, o);
    case JobUndumpable(e) => RaiseKeepsInv(c, s, e);
    case RetireKeeps => GoOnKeepsInv(c, s);
    case RetireQuits => LeaveLoopKeepsInv(c, s, LeaveLoop(c, s).worker);
    case RetireRaises(e) => RaiseKeepsInv(c, s, e);
  }

  lemma WorldKeepsInv(c: Config, s: State, l: WorldStep)
    requires Sane(c) && Inv(c, s) && WorldCan(c, s, l)
    ensures Inv(c, WorldDo(c, s, l))
  {
    match l
    case PollExpires => LeaveLoopKeepsInv(c, s, LeaveLoop(c, s).worker);
    case Cancel => CancelKeepsInv(c, s);
    case Perish(code) => EndKeepsInv(c, s, code, Outside);
  }

  /** Every step keeps the invariant. */
  lemma StepKeepsInv(c: Config, s: State, l: Label)
    requires Sane(c) && Inv(c, s) && Enabled(c, s, l)
    ensures Inv(c, Apply(c, s, l))
  {
    match l
    case Calls(k) => CallKeepsInv(c, s, k);
    case Mains(m) => MainKeepsInv(c, s, m);
    case Loops(w) => LoopKeepsInv(c, s, w);
    case Exits(w) => ExitKeepsInv(c, s, w);
    case Users(u) => UserKeepsInv(c, s, u);
    case Worlds(x) => WorldKeepsInv(c, s, x);
  }

  // ----------------------------------------------- what a step leaves unchanged

  /** Steps other than the caller's: an unused worker stays unused, an answer stands, and
      the dead stay dead. */
  predicate Undisturbed(s: State, t: State) {
    && (!Busy(s.main) ==> t.main == s.main && t.killed == s.killed)
    && (Busy(s.main) ==> Busy(t.main) || (t.main.Done? && !t.main.answer.Unpicklable?))
    && t.job == s.job
    && (s.worker.Dead? ==> t.worker == s.worker)
    && (s.killed ==> t.killed)
  }

  lemma MainLeavesUndisturbed(c: Config, s: State, l: MainStep)
    requires MainCan(c, s, l)
    ensures Undisturbed(s, MainDo(c, s, l))
  {
    match l
    case Write(_) =>
    case WriteFails =>
    case Read(_) =>
    case ReadEof =>
    case Load =>
    case LoadFails =>
    case DropClose =>
    case Reaped =>
    case Kill =>
    case KillReaped =>
  }

  lemma LoopLeavesUndisturbed(c: Config, s: State, l: LoopStep)
    requires LoopCan(c, s, l)
    ensures Undisturbed(s, LoopDo(c, s, l)) && LoopDo(c, s, l).main == s.main
  {
  }

  lemma ExitLeavesUndisturbed(c: Config, s: State, l: ExitStep)
    requires ExitCan(c, s, l)
    ensures Undisturbed(s, ExitDo(c, s, l)) && ExitDo(c, s, l).main == s.main
  {
    match l
    case CloseReadEnd =>
    case PutSentinel =>
    case CloseWriteEnd =>
    case GraceCloseWrite =>
    case GraceCloseRead =>
    case BadCloseWrite =>
    case DrainTake(_) =>
    case DrainEof(_) =>
    case Exit =>
    case Die =>
  }

  lemma UserLeavesUndisturbed(c: Config, s: State, l: UserStep)
    requires UserCan(c, s, l)
    ensures Undisturbed(s, UserDo(c, s, l)) && UserDo(c, s, l).main == s.main
  {
  }

  lemma WorldLeavesUndisturbed(c: Config, s: State, l: WorldStep)
    requires WorldCan(c, s, l)
    ensures Undisturbed(s, WorldDo(c, s, l)) && (l.Cancel? || WorldDo(c, s, l).main == s.main)
  {
  }

  lemma InnerLeavesUndisturbed(c: Config, s: State, l: Label)
    requires Enabled(c, s, l) && !l.Calls?
    ensures Undisturbed(s, Apply(c, s, l))
  {
    match l
    case Mains(m) => MainLeavesUndisturbed(c, s, m);
    case Loops(w) => LoopLeavesUndisturbed(c, s, w);
    case Exits(w) => ExitLeavesUndisturbed(c, s, w);
    case Users(u) => UserLeavesUndisturbed(c, s, u);
    case Worlds(x) => WorldLeavesUndisturbed(c, s, x);
  }
}
