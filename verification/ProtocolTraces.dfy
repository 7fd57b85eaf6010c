/**
 What the labels of a run say about its end. Nothing here is read off the history fields of
 a state: the laws speak of what was called, what user code returned and what happened, and
 of what main then answers.
 */
module ProtocolTraces {
  import opened Options
  import opened Framing
  import opened Protocol
  import opened ProtocolProofs
  import opened ProtocolResults

  // ------------------------------------------------------------- observations

  predicate Submission(l: Label) {
    l.Calls? && (l.call.Submit? || l.call.SubmitUnpicklable? || l.call.SubmitShut?)
  }

  /** The latest submission ... */
  function Latest(ls: seq<Label>): Option<Call> {
    if ls == [] then None
    else if Submission(ls[|ls| - 1]) then Some(ls[|ls| - 1].call)
    else Latest(ls[..|ls| - 1])
  }

  /** ... and the labels after it. */
  function Since(ls: seq<Label>): seq<Label> {
    if ls == [] || Submission(ls[|ls| - 1]) then [] else Since(ls[..|ls| - 1]) + [ls[|ls| - 1]]
  }

  predicate EndsJob(l: Label) {
    l.Users? && l.user.JobEnds?
  }

  /** How often handle_job is entered ... */
  function Entered(ls: seq<Label>): nat {
    if ls == [] then 0 else Entered(ls[..|ls| - 1]) + if ls[|ls| - 1] == Loops(Start) then 1 else 0
  }

  /** ... what its entries produce, in order ... */
  function Ended(ls: seq<Label>): seq<Outcome> {
    if ls == [] then []
    else Ended(ls[..|ls| - 1]) + if EndsJob(ls[|ls| - 1]) then [ls[|ls| - 1].user.o] else []
  }

  /** ... and how often retire answers that the worker is to go on. */
  function KeptOn(ls: seq<Label>): nat {
    if ls == [] then 0 else KeptOn(ls[..|ls| - 1]) + if ls[|ls| - 1] == Users(RetireKeeps) then 1 else 0
  }

  predicate Perishes(l: Label) {
    l.Worlds? && l.world.Perish?
  }

  predicate Perished(ls: seq<Label>) {
    exists i :: 0 <= i < |ls| && Perishes(ls[i])
  }

  /** User code in the worker raises, or an outcome cannot be pickled. */
  predicate Raises(l: Label, e: UserExc) {
    l == Users(InitRaises(e)) || l == Users(RetireRaises(e)) || l == Users(JobUndumpable(e))
  }

  predicate QuitsCleanly(l: Label) {
    l == Worlds(PollExpires) || l == Users(RetireQuits)
  }

  /** The way out of the worker's loop that a step is, if it is one. */
  function Out(l: Label): Option<Path> {
    if QuitsCleanly(l) then Some(Clean)
    else if Raises(l, Other) then Some(Bad)
    else if Raises(l, ShutdownLookalike) then Some(UserShut)
    else if l == Loops(TakeEof) then Some(PipeClosed)
    else None
  }

  // ------------------------------------------------------- what one step shows

  /** What is counted, and the way out. */
  predicate Marks(s: State, l: Label, t: State) {
    && t.entries == (if Submission(l) then 0 else if l == Loops(Start) then s.entries + 1 else s.entries)
    && t.made == (if Submission(l) then None else if EndsJob(l) then Some(l.user.o) else s.made)
    && t.path == (if Out(l).Some? then Out(l).value else s.path)
  }

  lemma LoadMarks(c: Config, s: State)
    requires MainCan(c, s, Load)
    ensures Marks(s, Mains(Load), Loaded(c, s))
  {
  }

  lemma MainMarks(c: Config, s: State, l: MainStep)
    requires MainCan(c, s, l)
    ensures Marks(s, Mains(l), MainDo(c, s, l))
  {
    match l
    case Write(_) =>
    case WriteFails =>
    case Read(_) =>
    case ReadEof =>
    case Load => LoadMarks(c, s);
    case LoadFails =>
    case DropClose =>
    case Reaped =>
    case Kill =>
    case KillReaped =>
  }

  lemma CallMarks(c: Config, s: State, l: Call)
    requires CallCan(c, s, l)
    ensures Marks(s, Calls(l), CallDo(c, s, l))
  {
    match l
    case Submit(_) =>
    case SubmitUnpicklable(_) =>
    case Return =>
    case Shutdown =>
    case ShutKill =>
    case SubmitShut(_) =>
  }

  /** A worker waits for bytes that do not come only between jobs. */
  lemma EofBetweenJobs(c: Config, s: State)
    requires Sane(c) && Inv(c, s) && LoopCan(c, s, TakeEof)
    ensures Heard(s.jobs) == EndOfChannel
  {
    NothingRead(s.jobs);
  }

  lemma LoopMarks(c: Config, s: State, l: LoopStep)
    requires LoopCan(c, s, l) && (l.TakeEof? ==> Heard(s.jobs) == EndOfChannel)
    ensures Marks(s, Loops(l), LoopDo(c, s, l))
  {
    match l
    case PollReady =>
    case Take(_) =>
    case TakeEof =>
    case Start =>
    case Put(_) =>
  }

  lemma ExitMarks(c: Config, s: State, l: ExitStep)
    requires ExitCan(c, s, l)
    ensures Marks(s, Exits(l), ExitDo(c, s, l))
  {
    match l
    case CloseReadEnd =>
    case PutSentinel =>
    case CloseWriteEnd =>
    case GraceCloseWrite =>
    case GraceCloseRead =>
    case BadCloseWrite =>
    case DrainTake(_) =>
    case DrainEof(_) =>
    case Exit =>
    case Die =>
  }

  lemma UserMarks(c: Config, s: State, l: UserStep)
    requires UserCan(c, s, l)
    ensures Marks(s, Users(l), UserDo(c, s, l))
  {
    match l
    case InitOk =>
    case InitRaises(_) =>
    case JobEnds(_) =>
    case JobUndumpable(_) =>
    case RetireKeeps =>
    case RetireQuits =>
    case RetireRaises(_) =>
  }

  lemma WorldMarks(c: Config, s: State, l: WorldStep)
    requires WorldCan(c, s, l)
    ensures Marks(s, Worlds(l), WorldDo(c, s, l))
  {
    match l
    case PollExpires =>
    case Cancel =>
    case Perish(_) =>
  }

  lemma StepMarks(c: Config, s: State, l: Label)
    requires Sane(c) && Inv(c, s) && Enabled(c, s, l)
    ensures Marks(s, l, Apply(c, s, l))
  {
    match l
    case Calls(k) => CallMarks(c, s, k);
    case Mains(k) => MainMarks(c, s, k);
    case Loops(k) =>
      if k.TakeEof? {
        EofBetweenJobs(c, s);
      }
      LoopMarks(c, s, k);
    case Exits(k) => ExitMarks(c, s, k);
    case Users(k) => UserMarks(c, s, k);
    case Worlds(k) => WorldMarks(c, s, k);
  }

  predicate NotPickled(m: Main) {
    m.Done? && m.answer.Unpicklable?
  }

  /** Main is at, or has answered, a submission of a job through an open pipe. */
  predicate Serving(m: Main) {
    if m.Done? then !m.answer.Unpicklable? && m.answer != Raised(PipeShut)
    else Busy(m) && !Failing(m, PipeShut)
  }

  /** What main comes to, other than by being called. */
  predicate Stirs(s: State, l: Label, t: State) {
    && t.job == s.job
    && (Serving(t.main) ==> Serving(s.main))
    && (NotPickled(t.main) ==> t.main == s.main)
    && (Failing(t.main, PipeShut) ==> Failing(s.main, PipeShut))
    && (Failing(t.main, Cancelled) ==> Failing(s.main, Cancelled) || l == Worlds(Cancel))
    && (Failing(t.main, BadLoad) ==> Failing(s.main, BadLoad) || l == Mains(LoadFails))
  }

  lemma ParcelsLoad(c: Config, s: State)
    requires Sane(c) && ReplyInv(c, s) && MainCan(c, s, Load)
    ensures c.loads(Heard(s.results).payload).Some?
  {
    MainHearsDue(c, s);
  }

  lemma LoadStirs(c: Config, s: State)
    requires MainCan(c, s, Load) && c.loads(Heard(s.results).payload).Some?
    ensures Stirs(s, Mains(Load), Loaded(c, s))
  {
  }

  lemma MainStirs(c: Config, s: State, l: MainStep)
    requires MainCan(c, s, l) && !l.Load?
    ensures Stirs(s, Mains(l), MainDo(c, s, l))
  {
    match l
    case Write(_) =>
    case WriteFails =>
    case Read(_) =>
    case ReadEof =>
    case LoadFails =>
    case DropClose =>
    case Reaped =>
    case Kill =>
    case KillReaped =>
  }

  lemma StillStirs(s: State, l: Label, t: State)
    requires t.job == s.job && t.main == s.main
    ensures Stirs(s, l, t)
  {
  }

  lemma CallStirs(c: Config, s: State, l: Call)
    requires CallCan(c, s, l) && !Submission(Calls(l))
    ensures Stirs(s, Calls(l), CallDo(c, s, l))
  {
    match l
    case Return =>
    case Shutdown =>
    case ShutKill =>
  }

  lemma WorldStirs(c: Config, s: State, l: WorldStep)
    requires WorldCan(c, s, l)
    ensures Stirs(s, Worlds(l), WorldDo(c, s, l))
  {
    match l
    case PollExpires =>
    case Cancel =>
    case Perish(_) =>
  }

  lemma StepStirs(c: Config, s: State, l: Label)
    requires Sane(c) && Inv(c, s) && Enabled(c, s, l) && !Submission(l)
    ensures Stirs(s, l, Apply(c, s, l))
  {
    match l
    case Calls(k) => CallStirs(c, s, k);
    case Mains(k) => if k.Load? { ParcelsLoad(c, s); LoadStirs(c, s); } else { MainStirs(c, s, k); }
    case Loops(k) => LoopLeavesUndisturbed(c, s, k); StillStirs(s, l, LoopDo(c, s, k));
    case Exits(k) => ExitLeavesUndisturbed(c, s, k); StillStirs(s, l, ExitDo(c, s, k));
    case Users(k) => UserLeavesUndisturbed(c, s, k); StillStirs(s, l, UserDo(c, s, k));
    case Worlds(k) => WorldStirs(c, s, k);
  }

  /** The process is ending, or has ended, by itself. */
  predicate OwnEnd(w: Worker) {
    w.Leaving? || (w.Dead? && w.cause.Own?)
  }

  /** How the process ends, and how many jobs were run and retire calls made before. */
  predicate Ends(s: State, l: Label, t: State) {
    && (OwnEnd(t.worker) ==>
          (OwnEnd(s.worker) && s.worker.code == t.worker.code) || l == Exits(DrainEof(t.worker.code))
          || (!s.path.Bad? && t.worker.code == 0))
    && (DiedOutside(t.worker) ==> t.worker == s.worker || l == Worlds(Perish(t.worker.code)))
    && (DiedOutside(s.worker) || Perishes(l) ==> DiedOutside(t.worker))
    && (Out(l).Some? ==> !OwnEnd(t.worker))
  }

  lemma SameWorkerEnds(s: State, l: Label, t: State)
    requires t.worker == s.worker && !Perishes(l) && Out(l).None?
    ensures Ends(s, l, t)
  {
  }

  lemma MainLeavesTheWorker(c: Config, s: State, l: MainStep)
    requires MainCan(c, s, l)
    ensures MainDo(c, s, l).worker == s.worker
  {
    match l
    case Write(_) =>
    case WriteFails =>
    case Read(_) =>
    case ReadEof =>
    case Load =>
    case LoadFails =>
    case DropClose =>
    case Reaped =>
    case Kill =>
    case KillReaped =>
  }

  lemma CallLeavesTheWorker(c: Config, s: State, l: Call)
    requires CallCan(c, s, l)
    ensures CallDo(c, s, l).worker == s.worker
  {
    match l
    case Submit(_) =>
    case SubmitUnpicklable(_) =>
    case Return =>
    case Shutdown =>
    case ShutKill =>
    case SubmitShut(_) =>
  }

  lemma CallEnds(c: Config, s: State, l: Call)
    requires CallCan(c, s, l)
    ensures Ends(s, Calls(l), CallDo(c, s, l))
  {
    CallLeavesTheWorker(c, s, l);
    SameWorkerEnds(s, Calls(l), CallDo(c, s, l));
  }

  lemma MainEnds(c: Config, s: State, l: MainStep)
    requires MainCan(c, s, l)
    ensures Ends(s, Mains(l), MainDo(c, s, l))
  {
    MainLeavesTheWorker(c, s, l);
    SameWorkerEnds(s, Mains(l), MainDo(c, s, l));
  }

  lemma LoopEnds(c: Config, s: State, l: LoopStep)
    requires LoopCan(c, s, l)
    ensures Ends(s, Loops(l), LoopDo(c, s, l))
  {
    match l
    case PollReady =>
    case Take(_) =>
    case TakeEof =>
    case Start =>
    case Put(_) =>
  }

  lemma ExitEnds(c: Config, s: State, l: ExitStep)
    requires WorkerInv(c, s) && ExitCan(c, s, l)
    ensures Ends(s, Exits(l), ExitDo(c, s, l))
  {
    match l
    case CloseReadEnd =>
    case PutSentinel =>
    case CloseWriteEnd =>
    case GraceCloseWrite =>
    case GraceCloseRead =>
    case BadCloseWrite =>
    case DrainTake(_) =>
    case DrainEof(_) =>
    case Exit =>
    case Die =>
  }

  lemma UserEnds(c: Config, s: State, l: UserStep)
    requires UserCan(c, s, l)
    ensures Ends(s, Users(l), UserDo(c, s, l))
  {
    match l
    case InitOk =>
    case InitRaises(_) =>
    case JobEnds(_) =>
    case JobUndumpable(_) =>
    case RetireKeeps =>
    case RetireQuits =>
    case RetireRaises(_) =>
  }

  lemma WorldEnds(c: Config, s: State, l: WorldStep)
    requires WorldCan(c, s, l)
    ensures Ends(s, Worlds(l), WorldDo(c, s, l))
  {
    match l
    case PollExpires =>
    case Cancel =>
    case Perish(_) =>
  }

  lemma StepEnds(c: Config, s: State, l: Label)
    requires WorkerInv(c, s) && Enabled(c, s, l)
    ensures Ends(s, l, Apply(c, s, l))
  {
    match l
    case Calls(k) => CallEnds(c, s, k);
    case Mains(k) => MainEnds(c, s, k);
    case Loops(k) => LoopEnds(c, s, k);
    case Exits(k) => ExitEnds(c, s, k);
    case Users(k) => UserEnds(c, s, k);
    case Worlds(k) => WorldEnds(c, s, k);
  }

  /** Every job is followed by one call of retire, before the worker polls again. */
  predicate Paced(w: Worker, starts: nat, keeps: nat) {
    match w
    case Init => starts == keeps == 0
    case Poll => starts == keeps
    case Recv => starts == keeps
    case Run(_) => starts == keeps + 1
    case Reply => starts == keeps + 1
    case Retire => starts == keeps + 1
    case _ => keeps <= starts <= keeps + 1
  }

  function One(b: bool): nat {
    if b then 1 else 0
  }

  predicate KeepsPace(s: State, l: Label, t: State, starts: nat, keeps: nat) {
    Paced(s.worker, starts, keeps) ==>
      Paced(t.worker, starts + One(l == Loops(Start)), keeps + One(l == Users(RetireKeeps)))
  }

  lemma LoopKeepsPace(c: Config, s: State, l: LoopStep, starts: nat, keeps: nat)
    requires LoopCan(c, s, l)
    ensures KeepsPace(s, Loops(l), LoopDo(c, s, l), starts, keeps)
  {
    match l
    case PollReady =>
    case Take(_) =>
    case TakeEof =>
    case Start =>
    case Put(_) =>
  }

  lemma UserKeepsPace(c: Config, s: State, l: UserStep, starts: nat, keeps: nat)
    requires UserCan(c, s, l)
    ensures KeepsPace(s, Users(l), UserDo(c, s, l), starts, keeps)
  {
    match l
    case InitOk =>
    case InitRaises(_) =>
    case JobEnds(_) =>
    case JobUndumpable(_) =>
    case RetireKeeps =>
    case RetireQuits =>
    case RetireRaises(_) =>
  }

  lemma WorldKeepsPace(c: Config, s: State, l: WorldStep, starts: nat, keeps: nat)
    requires WorldCan(c, s, l)
    ensures KeepsPace(s, Worlds(l), WorldDo(c, s, l), starts, keeps)
  {
    match l
    case PollExpires =>
    case Cancel =>
    case Perish(_) =>
  }

  lemma LeavingKeepsPace(c: Config, s: State, l: ExitStep, starts: nat, keeps: nat)
    requires ExitCan(c, s, l)
    ensures KeepsPace(s, Exits(l), ExitDo(c, s, l), starts, keeps)
  {
    match l
    case CloseReadEnd =>
    case PutSentinel =>
    case CloseWriteEnd =>
    case GraceCloseWrite =>
    case GraceCloseRead =>
    case BadCloseWrite =>
    case DrainTake(_) =>
    case DrainEof(_) =>
    case Exit =>
    case Die =>
  }

  lemma StepKeepsPace(c: Config, s: State, l: Label, starts: nat, keeps: nat)
    requires Enabled(c, s, l)
    ensures KeepsPace(s, l, Apply(c, s, l), starts, keeps)
  {
    match l
    case Calls(k) => CallLeavesTheWorker(c, s, k);
    case Mains(k) => MainLeavesTheWorker(c, s, k);
    case Exits(k) => LeavingKeepsPace(c, s, k, starts, keeps);
    case Loops(k) => LoopKeepsPace(c, s, k, starts, keeps);
    case Users(k) => UserKeepsPace(c, s, k, starts, keeps);
    case Worlds(k) => WorldKeepsPace(c, s, k, starts, keeps);
  }

  // ------------------------------------------------------- what a run tells

  function WayTaken(ls: seq<Label>): Path {
    if ls == [] then Looping
    else if Out(ls[|ls| - 1]).Some? then Out(ls[|ls| - 1]).value
    else WayTaken(ls[..|ls| - 1])
  }

  predicate Served(s: State, latest: Option<Call>) {
    && (NotPickled(s.main) ==> latest == Some(SubmitUnpicklable(s.main.answer.exc)))
    && (Failing(s.main, PipeShut) ==> latest == Some(SubmitShut(s.job)))
    && (Serving(s.main) ==> latest == Some(Submit(s.job)))
  }

  predicate Caused(m: Main, since: seq<Label>) {
    && (Failing(m, Cancelled) ==> Worlds(Cancel) in since)
    && (Failing(m, BadLoad) ==> Mains(LoadFails) in since)
  }

  predicate EndTold(s: State, ls: seq<Label>) {
    && (OwnEnd(s.worker) ==> Exits(DrainEof(s.worker.code)) in ls || (!s.path.Bad? && s.worker.code == 0))
    && (DiedOutside(s.worker) ==> Worlds(Perish(s.worker.code)) in ls)
    && (Perished(ls) ==> DiedOutside(s.worker))
  }

  predicate Counted(s: State, since: seq<Label>) {
    s.entries == Entered(since) && Ended(since) == if s.made.Some? then [s.made.value] else []
  }

  ghost predicate Told(s: State, ls: seq<Label>) {
    && Counted(s, Since(ls))
    && s.path == WayTaken(ls)
    && Served(s, Latest(ls))
    && Caused(s.main, Since(ls))
    && EndTold(s, ls)
    && Paced(s.worker, Entered(ls), KeptOn(ls))
  }

  lemma OneMore(ls: seq<Label>, l: Label)
    ensures Latest(ls + [l]) == if Submission(l) then Some(l.call) else Latest(ls)
    ensures Since(ls + [l]) == if Submission(l) then [] else Since(ls) + [l]
    ensures WayTaken(ls + [l]) == if Out(l).Some? then Out(l).value else WayTaken(ls)
  {
    assert (ls + [l])[..|ls|] == ls;
  }

  lemma OneMoreCounts(ls: seq<Label>, l: Label)
    ensures Entered(ls + [l]) == Entered(ls) + One(l == Loops(Start))
    ensures KeptOn(ls + [l]) == KeptOn(ls) + One(l == Users(RetireKeeps))
    ensures Ended(ls + [l]) == Ended(ls) + if EndsJob(l) then [l.user.o] else []
  {
    assert (ls + [l])[..|ls|] == ls;
  }

  lemma OneMorePerished(ls: seq<Label>, l: Label)
    ensures Perished(ls + [l]) <==> Perished(ls) || Perishes(l)
  {
    if Perished(ls) {
      var i :| 0 <= i < |ls| && Perishes(ls[i]);
      assert (ls + [l])[i] == ls[i];
    }
    if Perishes(l) {
      assert (ls + [l])[|ls|] == l;
    }
    if Perished(ls + [l]) && !Perishes(l) {
      var i :| 0 <= i < |ls + [l]| && Perishes((ls + [l])[i]);
      assert ls[i] == (ls + [l])[i];
    }
  }

  lemma NextCounted(s: State, t: State, since: seq<Label>, l: Label)
    requires Counted(s, since) && Marks(s, l, t) && !Submission(l) && (EndsJob(l) ==> s.made.None?)
    ensures Counted(t, since + [l])
  {
    OneMoreCounts(since, l);
  }

  lemma NoneCounted(s: State, t: State, l: Label)
    requires Marks(s, l, t) && Submission(l)
    ensures Counted(t, [])
  {
  }

  lemma CountsTold(s: State, t: State, ls: seq<Label>, l: Label)
    requires Counted(s, Since(ls)) && Marks(s, l, t) && (EndsJob(l) ==> s.made.None?)
    ensures Counted(t, Since(ls + [l]))
  {
    OneMore(ls, l);
    if Submission(l) {
      NoneCounted(s, t, l);
    } else {
      NextCounted(s, t, Since(ls), l);
    }
  }

  lemma PathTold(s: State, t: State, ls: seq<Label>, l: Label)
    requires s.path == WayTaken(ls) && Marks(s, l, t)
    ensures t.path == WayTaken(ls + [l])
  {
    OneMore(ls, l);
  }

  lemma JobEndsOnce(c: Config, s: State, l: Label)
    requires JobInv(s) && Enabled(c, s, l) && EndsJob(l)
    ensures s.made.None?
  {
  }

  lemma SubmissionServes(c: Config, s: State, l: Call)
    requires CallCan(c, s, l) && Submission(Calls(l))
    ensures Served(CallDo(c, s, l), Some(l))
    ensures Caused(CallDo(c, s, l).main, [])
  {
    match l
    case Submit(_) =>
    case SubmitUnpicklable(_) =>
    case SubmitShut(_) =>
  }

  lemma MainTold(c: Config, s: State, ls: seq<Label>, l: Label)
    requires Sane(c) && Inv(c, s) && Enabled(c, s, l) && Told(s, ls)
    ensures Served(Apply(c, s, l), Latest(ls + [l])) && Caused(Apply(c, s, l).main, Since(ls + [l]))
  {
    OneMore(ls, l);
    if Submission(l) {
      SubmissionServes(c, s, l.call);
    } else {
      StepStirs(c, s, l);
    }
  }

  lemma EndIsTold(c: Config, s: State, ls: seq<Label>, l: Label)
    requires Inv(c, s) && Enabled(c, s, l) && Told(s, ls) && Marks(s, l, Apply(c, s, l))
    ensures EndTold(Apply(c, s, l), ls + [l])
  {
    StepEnds(c, s, l);
    OneMorePerished(ls, l);
    if Out(l).Some? {
      OutIsFromTheLoop(c, s, l);
    }
  }

  /** A worker leaves its loop only once. */
  lemma OutIsFromTheLoop(c: Config, s: State, l: Label)
    requires WorkerInv(c, s) && Enabled(c, s, l) && Out(l).Some?
    ensures LoopPhase(s.worker) && s.path.Looping?
  {
  }

  lemma StepTold(c: Config, s: State, ls: seq<Label>, l: Label)
    requires Sane(c) && Inv(c, s) && Enabled(c, s, l) && Told(s, ls)
    ensures Told(Apply(c, s, l), ls + [l])
  {
    StepMarks(c, s, l);
    if EndsJob(l) {
      JobEndsOnce(c, s, l);
    }
    CountsTold(s, Apply(c, s, l), ls, l);
    PathTold(s, Apply(c, s, l), ls, l);
    MainTold(c, s, ls, l);
    EndIsTold(c, s, ls, l);
    StepKeepsPace(c, s, l, Entered(ls), KeptOn(ls));
    OneMoreCounts(ls, l);
  }

  lemma OneStep(c: Config, s: State, ls: seq<Label>)
    requires |ls| == 1 && Possible(c, s, ls)
    ensures Enabled(c, s, ls[0]) && After(c, s, ls) == Apply(c, s, ls[0])
  {
    assert After(c, Apply(c, s, ls[0]), ls[1..]) == Apply(c, s, ls[0]);
  }

  /** The last step of a run. */
  lemma {:induction false} Backwards(c: Config, s: State, ls: seq<Label>)
    requires ls != [] && Possible(c, s, ls)
    ensures var front, l := ls[..|ls| - 1], ls[|ls| - 1];
            && ls == front + [l]
            && Possible(c, s, front) && Enabled(c, After(c, s, front), l)
            && After(c, s, ls) == Apply(c, After(c, s, front), l)
    decreases |ls|
  {
    if |ls| == 1 {
      OneStep(c, s, ls);
    } else {
      var l, rest := ls[0], ls[1..];
      Backwards(c, Apply(c, s, l), rest);
      Prepend(c, s, l, rest[..|rest| - 1]);
      assert ls[..|ls| - 1] == [l] + rest[..|rest| - 1];
    }
  }

  lemma {:induction false} RunTold(c: Config, ls: seq<Label>)
    requires Sane(c) && Possible(c, Fresh(), ls)
    ensures Told(After(c, Fresh(), ls), ls) && Inv(c, After(c, Fresh(), ls))
    decreases |ls|
  {
    FreshInv(c);
    if ls != [] {
      Backwards(c, Fresh(), ls);
      var front, l := ls[..|ls| - 1], ls[|ls| - 1];
      RunTold(c, front);
      StepTold(c, After(c, Fresh(), front), front, l);
      StepKeepsInv(c, After(c, Fresh(), front), l);
    }
  }

  // ------------------------------------------------------------------- laws

  /** Some step of the run is of this kind. */
  predicate SomeRaise(ls: seq<Label>, e: UserExc) {
    exists i :: 0 <= i < |ls| && Raises(ls[i], e)
  }

  predicate SomeQuit(ls: seq<Label>) {
    exists i :: 0 <= i < |ls| && QuitsCleanly(ls[i])
  }

  /** The way taken has a step of the run behind it. */
  lemma {:induction false} WayHasAStep(ls: seq<Label>)
    ensures !WayTaken(ls).Looping? ==> exists i :: 0 <= i < |ls| && Out(ls[i]) == Some(WayTaken(ls))
  {
    if ls != [] {
      var n := |ls| - 1;
      if Out(ls[n]).None? && !WayTaken(ls).Looping? {
        WayHasAStep(ls[..n]);
        var i :| 0 <= i < n && Out(ls[..n][i]) == Some(WayTaken(ls[..n]));
        assert ls[i] == ls[..n][i];
      }
    }
  }

  lemma OnlyOnce(c: Config, s: State, l: Label)
    requires WorkerInv(c, s) && Enabled(c, s, l) && !s.path.Looping?
    ensures Out(l).None?
  {
    if Out(l).Some? {
      OutIsFromTheLoop(c, s, l);
    }
  }

  /** A run up to its last step. */
  lemma Behind(c: Config, ls: seq<Label>) returns (front: seq<Label>, s: State, l: Label)
    requires Sane(c) && ls != [] && Possible(c, Fresh(), ls)
    ensures ls == front + [l] && Possible(c, Fresh(), front)
    ensures WorkerInv(c, s) && s.path == WayTaken(front) && Enabled(c, s, l)
  {
    Backwards(c, Fresh(), ls);
    front, l := ls[..|ls| - 1], ls[|ls| - 1];
    s := After(c, Fresh(), front);
    RunTold(c, front);
  }

  lemma OutDecides(front: seq<Label>, l: Label)
    requires Out(l).Some?
    ensures WayTaken(front + [l]) == Out(l).value
  {
    OneMore(front, l);
  }

  lemma OutPersists(c: Config, s: State, front: seq<Label>, l: Label)
    requires WorkerInv(c, s) && Enabled(c, s, l) && s.path == WayTaken(front) && !s.path.Looping?
    ensures WayTaken(front + [l]) == WayTaken(front)
  {
    OnlyOnce(c, s, l);
    OneMore(front, l);
  }

  lemma {:induction false} WayStands(c: Config, ls: seq<Label>, i: nat, way: Path)
    requires Sane(c) && Possible(c, Fresh(), ls) && i < |ls| && Out(ls[i]) == Some(way)
    ensures WayTaken(ls) == way
    decreases |ls|
  {
    var front, s, l := Behind(c, ls);
    if i == |front| {
      OutDecides(front, l);
    } else {
      WayStands(c, front, i, way);
      OutPersists(c, s, front, l);
    }
  }

  lemma OutOfTheLoop(c: Config, s: State)
    requires WorkerInv(c, s) && !s.path.Looping?
    ensures !LoopPhase(s.worker)
  {
  }

  /** And the other way round: a worker leaves its loop once, and for good. */
  lemma HasTaken(c: Config, ls: seq<Label>, i: nat, way: Path) returns (s: State)
    requires Sane(c) && Possible(c, Fresh(), ls) && i < |ls| && Out(ls[i]) == Some(way)
    ensures s == After(c, Fresh(), ls) && Inv(c, s) && Told(s, ls)
    ensures s.path == way && !LoopPhase(s.worker) && (DiedOutside(s.worker) <==> Perished(ls))
  {
    WayStands(c, ls, i, way);
    RunTold(c, ls);
    s := After(c, Fresh(), ls);
    OutOfTheLoop(c, s);
    DeathHasAStep(s, ls);
  }

  predicate OfAJob(latest: Option<Call>) {
    latest.Some? && latest.value.Submit?
  }

  /** What an answer says about a run. */
  predicate Accounts(a: Answer, ls: seq<Label>) {
    var since, latest := Since(ls), Latest(ls);
    match a
    case Delivered(o) => OfAJob(latest) && Entered(since) == 1 && Ended(since) == [o]
    case Unpicklable(exc) => latest == Some(SubmitUnpicklable(exc)) && Entered(since) == 0
    case Retry =>
      OfAJob(latest) && Entered(since) == 0 && (SomeQuit(ls) || SomeRaise(ls, ShutdownLookalike) || Perished(ls))
    case Raised(why) =>
      && latest.Some? && !latest.value.SubmitUnpicklable? && Entered(since) <= 1
      && (why.PipeShut? <==> latest.value.SubmitShut?)
      && (why.Cancelled? ==> Worlds(Cancel) in since)
      && (why.BadLoad? ==> Mains(LoadFails) in since && Entered(since) == 1)
      && (why.TornReply? ==> Perished(ls))
      && (why.BrokenWorker? ==> SomeRaise(ls, Other) || SomeRaise(ls, ShutdownLookalike) || Perished(ls))
  }

  /** The three ways out that are not main's doing. */
  lemma WayHasACause(ls: seq<Label>)
    ensures WayTaken(ls).Clean? ==> SomeQuit(ls)
    ensures WayTaken(ls).UserShut? ==> SomeRaise(ls, ShutdownLookalike)
    ensures WayTaken(ls).Bad? ==> SomeRaise(ls, Other)
  {
    WayHasAStep(ls);
  }

  lemma AnswerAccounts(c: Config, s: State, ls: seq<Label>)
    requires Inv(c, s) && Told(s, ls) && s.main.Done? && !s.main.answer.Raised?
    ensures Accounts(s.main.answer, ls)
  {
    WayHasACause(ls);
    DeathHasAStep(s, ls);
  }

  lemma RaisedAccounts(c: Config, s: State, ls: seq<Label>)
    requires Inv(c, s) && Told(s, ls) && s.main.Done? && s.main.answer.Raised?
    ensures Accounts(s.main.answer, ls)
  {
    WayHasACause(ls);
    DeathHasAStep(s, ls);
  }

  /** What every answer of every run says about the calls, the user code and the accidents
      of the run. A delivered outcome is what the one entry of handle_job since the latest
      submission ended in. */
  lemma AnswersTold(c: Config, ls: seq<Label>)
    requires Sane(c) && Possible(c, Fresh(), ls) && After(c, Fresh(), ls).main.Done?
    ensures Accounts(After(c, Fresh(), ls).main.answer, ls)
  {
    RunTold(c, ls);
    if After(c, Fresh(), ls).main.answer.Raised? {
      RaisedAccounts(c, After(c, Fresh(), ls), ls);
    } else {
      AnswerAccounts(c, After(c, Fresh(), ls), ls);
    }
  }

  lemma DeathHasAStep(s: State, ls: seq<Label>)
    requires EndTold(s, ls)
    ensures DiedOutside(s.worker) <==> Perished(ls)
  {
    if DiedOutside(s.worker) {
      var i :| 0 <= i < |ls| && ls[i] == Worlds(Perish(s.worker.code));
      assert Perishes(ls[i]);
    }
  }

  /** handle_job runs the job that was submitted last. */
  lemma RunsTheJobSubmitted(c: Config, ls: seq<Label>)
    requires Sane(c) && Possible(c, Fresh(), ls) && After(c, Fresh(), ls).worker.Run?
    ensures OfAJob(Latest(ls)) && Latest(ls).value.job == After(c, Fresh(), ls).worker.job
    ensures Entered(Since(ls)) == 1 && Ended(Since(ls)) == []
  {
    RunTold(c, ls);
  }

  /** A submission of a job has come to its answer, uncancelled and before the job was
      entered. */
  predicate Unspoilt(s: State, ls: seq<Label>) {
    s.main.Done? && OfAJob(Latest(ls)) && Entered(Since(ls)) == 0 && Worlds(Cancel) !in Since(ls)
  }

  lemma BadMeansBroken(c: Config, s: State, ls: seq<Label>)
    requires Inv(c, s) && Told(s, ls) && s.path.Bad? && !DiedOutside(s.worker)
    ensures !Retrying(s.main) && (s.main.Send? ==> s.readOpen)
    ensures Unspoilt(s, ls) ==> s.main.answer == Raised(BrokenWorker)
  {
  }

  lemma CleanMeansRetry(c: Config, s: State, ls: seq<Label>)
    requires Inv(c, s) && Told(s, ls) && s.path.Clean? && !DiedOutside(s.worker)
    ensures !Breaking(s.main) && !Failing(s.main, TornReply) && (OwnEnd(s.worker) ==> s.worker.code == 0)
    ensures Unspoilt(s, ls) ==> s.main.answer == Retry
  {
  }

  /** A failing init or retire, or an outcome that cannot be pickled, is never taken for a
      clean exit: the worker has left its loop and keeps accepting the job, no submission is
      answered None, and one that comes to an answer uncancelled, before its job is entered,
      ends in the broken-worker error. */
  lemma FailureTold(c: Config, ls: seq<Label>)
    requires Sane(c) && Possible(c, Fresh(), ls) && SomeRaise(ls, Other) && !Perished(ls)
    ensures var s := After(c, Fresh(), ls);
            && !LoopPhase(s.worker) && !Retrying(s.main) && (s.main.Send? ==> s.readOpen)
            && (Unspoilt(s, ls) ==> s.main.answer == Raised(BrokenWorker))
  {
    var i :| 0 <= i < |ls| && Raises(ls[i], Other);
    var s := HasTaken(c, ls, i, Bad);
    BadMeansBroken(c, s, ls);
  }

  /** An idle timeout or a retirement is never reported as a broken worker: the worker has
      left its loop, a submission that comes to an answer uncancelled, before its job is
      entered, is answered None, and the process ends with code 0. */
  lemma CleanExitTold(c: Config, ls: seq<Label>)
    requires Sane(c) && Possible(c, Fresh(), ls) && SomeQuit(ls) && !Perished(ls)
    ensures var s := After(c, Fresh(), ls);
            && !LoopPhase(s.worker) && !Breaking(s.main) && !Failing(s.main, TornReply)
            && (OwnEnd(s.worker) ==> s.worker.code == 0)
            && (Unspoilt(s, ls) ==> s.main.answer == Retry)
  {
    var i :| 0 <= i < |ls| && QuitsCleanly(ls[i]);
    var s := HasTaken(c, ls, i, Clean);
    CleanMeansRetry(c, s, ls);
  }

  /** Between two jobs there is one call of retire, and the worker that polls has been kept on
      after every job it ran. */
  lemma RetireFollowsEachJob(c: Config, ls: seq<Label>)
    requires Sane(c) && Possible(c, Fresh(), ls)
    ensures KeptOn(ls) <= Entered(ls) <= KeptOn(ls) + 1
    ensures var w := After(c, Fresh(), ls).worker;
            (w.Poll? || w.Recv? ==> Entered(ls) == KeptOn(ls)) && (w.Run? || w.Reply? ==> Entered(ls) == KeptOn(ls) + 1)
  {
    RunTold(c, ls);
  }

  lemma EndAccounts(c: Config, s: State, ls: seq<Label>)
    requires Inv(c, s) && Told(s, ls) && s.worker.Dead?
    ensures match s.worker.cause
            case Own => if s.path.Bad? then Exits(DrainEof(s.worker.code)) in ls else s.worker.code == 0
            case ByKill => s.worker.code == -9
            case Outside => Worlds(Perish(s.worker.code)) in ls
  {
  }

  /** With what code a process ends. */
  lemma EndsTold(c: Config, ls: seq<Label>)
    requires Sane(c) && Possible(c, Fresh(), ls) && After(c, Fresh(), ls).worker.Dead?
    ensures var w := After(c, Fresh(), ls).worker;
            match w.cause
            case Own => if SomeRaise(ls, Other) then Exits(DrainEof(w.code)) in ls else w.code == 0
            case ByKill => w.code == -9
            case Outside => Worlds(Perish(w.code)) in ls
  {
    RunTold(c, ls);
    WayHasACause(ls);
    EndAccounts(c, After(c, Fresh(), ls), ls);
    if SomeRaise(ls, Other) {
      var i :| 0 <= i < |ls| && Raises(ls[i], Other);
      WayStands(c, ls, i, Bad);
    }
  }

  /** A failure of init or retire can be answered with None, by a worker nobody disturbed,
      if and only if the exception is one of those the worker takes for a shutdown. */
  lemma RetriedFailures(c: Config, e: UserExc)
    requires Sane(c)
    ensures (exists ls :: Possible(c, Fresh(), ls) && SomeRaise(ls, e) && !Perished(ls)
                          && Retrying(After(c, Fresh(), ls).main))
            <==> e == ShutdownLookalike
  {
    if e == ShutdownLookalike {
      var ls := QuietShutdown(c);
      assert Raises(ls[0], e);
    } else {
      forall ls | Possible(c, Fresh(), ls) && SomeRaise(ls, e) && !Perished(ls)
        ensures !Retrying(After(c, Fresh(), ls).main)
      {
        FailureTold(c, ls);
      }
    }
  }

  // ----------------------------------------------- where a submission must end

  /** One run after the other. */
  lemma {:induction false} Concat(c: Config, s: State, a: seq<Label>, t: State, b: seq<Label>)
    requires Possible(c, s, a) && After(c, s, a) == t && Possible(c, t, b)
    ensures Possible(c, s, a + b) && After(c, s, a + b) == After(c, t, b)
    decreases |a|
  {
    if a == [] {
      assert a + b == b;
    } else {
      var l, rest := a[0], a[1..];
      Concat(c, Apply(c, s, l), rest, t, b);
      Prepend(c, s, l, rest + b);
      assert a + b == [l] + (rest + b);
    }
  }

  /** A step of main or of a worker on its way out. */
  predicate Winding(l: Label) {
    l.Mains? || l.Exits?
  }

  lemma WindingStaysOut(c: Config, s: State, l: Label)
    requires Enabled(c, s, l) && Winding(l) && !LoopPhase(s.worker)
    ensures !LoopPhase(Apply(c, s, l).worker)
  {
    if l.Mains? {
      MainLeavesTheWorker(c, s, l.step);
    } else {
      ExitStaysOut(c, s, l.exit);
    }
  }

  lemma ExitStaysOut(c: Config, s: State, l: ExitStep)
    requires ExitCan(c, s, l)
    ensures !LoopPhase(ExitDo(c, s, l).worker)
  {
    match l
    case CloseReadEnd =>
    case PutSentinel =>
    case CloseWriteEnd =>
    case GraceCloseWrite =>
    case GraceCloseRead =>
    case BadCloseWrite =>
    case DrainTake(_) =>
    case DrainEof(_) =>
    case Exit =>
    case Die =>
  }

  lemma NoLoopStep(c: Config, s: State, l: Label)
    requires Enabled(c, s, l) && !LoopPhase(s.worker) && ProtocolResults.System(l)
    ensures Winding(l)
  {
  }

  lemma WindOn(c: Config, s: State) returns (l: Label)
    requires Sane(c) && Inv(c, s) && Busy(s.main) && !LoopPhase(s.worker)
    ensures Winding(l) && Enabled(c, s, l)
    ensures var t := Apply(c, s, l); Inv(c, t) && !LoopPhase(t.worker) && Below(t, s)
  {
    l := InvProgress(c, s);
    NoLoopStep(c, s, l);
    WindingStaysOut(c, s, l);
    StepDescends(c, s, l);
    StepKeepsInv(c, s, l);
  }

  /** A submission to a worker that has left its loop comes to an answer, by the code of main
      and worker alone. */
  lemma WindsUp(c: Config, s: State) returns (ls: seq<Label>, r: State)
    requires Sane(c) && Inv(c, s) && Busy(s.main) && !LoopPhase(s.worker)
    ensures Possible(c, s, ls) && r == After(c, s, ls) && !Busy(r.main)
    ensures forall l :: l in ls ==> Winding(l)
    decreases WorkerRank(s.worker, s.taken), MainRank(s.main), Traffic(s.jobs, s.results)
  {
    var l := WindOn(c, s);
    r := Apply(c, s, l);
    var rest := [];
    if Busy(r.main) {
      rest, r := WindsUp(c, r);
    }
    ls := [l] + rest;
    Prepend(c, s, l, rest);
    AllWinding(l, rest);
  }

  lemma AllWinding(l: Label, rest: seq<Label>)
    requires Winding(l) && forall k :: k in rest ==> Winding(k)
    ensures forall k :: k in [l] + rest ==> Winding(k)
  {
  }

  lemma {:induction false} WindingEndsDone(c: Config, s: State, ls: seq<Label>)
    requires Possible(c, s, ls) && (forall l :: l in ls ==> Winding(l)) && Serving(s.main)
    ensures Serving(After(c, s, ls).main)
    decreases |ls|
  {
    if ls != [] {
      assert ls[0] in ls;
      if ls[0].Mains? {
        MainKeepsServing(c, s, ls[0].step);
      } else {
        ExitLeavesUndisturbed(c, s, ls[0].exit);
      }
      WindingEndsDone(c, Apply(c, s, ls[0]), ls[1..]);
    }
  }

  lemma MainKeepsServing(c: Config, s: State, l: MainStep)
    requires MainCan(c, s, l) && Serving(s.main)
    ensures Serving(MainDo(c, s, l).main)
  {
    match l
    case Write(_) =>
    case WriteFails =>
    case Read(_) =>
    case ReadEof =>
    case Load =>
    case LoadFails =>
    case DropClose =>
    case Reaped =>
    case Kill =>
    case KillReaped =>
  }

  /** Such steps are no submissions, and neither start a job nor cancel one. */
  lemma {:induction false} WindingObserved(ls: seq<Label>, call: Call, more: seq<Label>)
    requires Submission(Calls(call)) && forall l :: l in more ==> Winding(l)
    ensures var all := ls + [Calls(call)] + more;
            Latest(all) == Some(call) && Since(all) == more && Entered(more) == 0
    decreases |more|
  {
    var start := ls + [Calls(call)];
    if more == [] {
      OneMore(ls, Calls(call));
      assert start + more == start;
    } else {
      var n := |more| - 1;
      WindingObserved(ls, call, more[..n]);
      assert more[n] in more && start + more == (start + more[..n]) + [more[n]] && more == more[..n] + [more[n]];
      OneMore(start + more[..n], more[n]);
      OneMoreCounts(more[..n], more[n]);
    }
  }

  lemma NothingMorePerished(ls: seq<Label>, l: Label, more: seq<Label>)
    requires !Perishes(l) && forall k :: k in more ==> Winding(k)
    ensures Perished(ls + [l] + more) ==> Perished(ls)
    ensures forall e :: SomeRaise(ls, e) ==> SomeRaise(ls + [l] + more, e)
    ensures SomeQuit(ls) ==> SomeQuit(ls + [l] + more)
  {
    var all := ls + [l] + more;
    assert forall i :: 0 <= i < |ls| ==> all[i] == ls[i];
    assert forall i :: |ls| < i < |all| ==> all[i] in more;
    assert all[|ls|] == l;
  }

  lemma WoundUp(c: Config, s: State, job: Payload) returns (more: seq<Label>)
    requires Sane(c) && Inv(c, s) && s.main.Idle? && !LoopPhase(s.worker)
    ensures forall l :: l in more ==> Winding(l)
    ensures var t := CallDo(c, s, Submit(job)); Possible(c, t, more) && After(c, t, more).main.Done?
  {
    CallKeepsInv(c, s, Submit(job));
    CallLeavesTheWorker(c, s, Submit(job));
    var t := CallDo(c, s, Submit(job));
    var r;
    more, r := WindsUp(c, t);
    WindingEndsDone(c, t, more);
  }

  lemma Submitting(c: Config, ls: seq<Label>, s: State, job: Payload, more: seq<Label>) returns (all: seq<Label>)
    requires Possible(c, Fresh(), ls) && s == After(c, Fresh(), ls) && s.main.Idle?
    requires Possible(c, CallDo(c, s, Submit(job)), more)
    ensures all == ls + [Calls(Submit(job))] + more
    ensures Possible(c, Fresh(), all) && After(c, Fresh(), all) == After(c, CallDo(c, s, Submit(job)), more)
  {
    all := ls + [Calls(Submit(job))] + more;
    Extend(c, Fresh(), ls, Calls(Submit(job)));
    Concat(c, Fresh(), ls + [Calls(Submit(job))], CallDo(c, s, Submit(job)), more);
  }

  /** The next submission to a worker that has left its loop, wound up. */
  lemma NextSubmission(c: Config, ls: seq<Label>, job: Payload) returns (more: seq<Label>, all: seq<Label>)
    requires Sane(c) && Possible(c, Fresh(), ls)
    requires After(c, Fresh(), ls).main.Idle? && !LoopPhase(After(c, Fresh(), ls).worker)
    ensures (forall l :: l in more ==> Winding(l)) && all == ls + [Calls(Submit(job))] + more
    ensures Possible(c, Fresh(), all) && After(c, Fresh(), all).main.Done?
  {
    RunTold(c, ls);
    var s := After(c, Fresh(), ls);
    more := WoundUp(c, s, job);
    all := Submitting(c, ls, s, job, more);
  }

  lemma NextIsUnspoilt(ls: seq<Label>, job: Payload, more: seq<Label>, s: State)
    requires s.main.Done? && forall l :: l in more ==> Winding(l)
    ensures Unspoilt(s, ls + [Calls(Submit(job))] + more)
  {
    WindingObserved(ls, Submit(job), more);
  }

  /** After such a failure any later submission can only end, uncancelled, in the
      broken-worker error, and it does end. */
  lemma FailedWorkerBreaks(c: Config, ls: seq<Label>, job: Payload) returns (more: seq<Label>)
    requires Sane(c) && Possible(c, Fresh(), ls) && After(c, Fresh(), ls).main.Idle?
    requires SomeRaise(ls, Other) && !Perished(ls)
    ensures forall l :: l in more ==> Winding(l)
    ensures var all := ls + [Calls(Submit(job))] + more;
            Possible(c, Fresh(), all) && After(c, Fresh(), all).main == Done(Raised(BrokenWorker))
  {
    FailureTold(c, ls);
    var all;
    more, all := NextSubmission(c, ls, job);
    NextIsUnspoilt(ls, job, more, After(c, Fresh(), all));
    NothingMorePerished(ls, Calls(Submit(job)), more);
    FailureTold(c, all);
  }

  /** And after an idle timeout or a retirement in None. */
  lemma CleanWorkerRetries(c: Config, ls: seq<Label>, job: Payload) returns (more: seq<Label>)
    requires Sane(c) && Possible(c, Fresh(), ls) && After(c, Fresh(), ls).main.Idle?
    requires SomeQuit(ls) && !Perished(ls)
    ensures forall l :: l in more ==> Winding(l)
    ensures var all := ls + [Calls(Submit(job))] + more;
            Possible(c, Fresh(), all) && After(c, Fresh(), all).main == Done(Retry)
  {
    CleanExitTold(c, ls);
    var all;
    more, all := NextSubmission(c, ls, job);
    NextIsUnspoilt(ls, job, more, After(c, Fresh(), all));
    NothingMorePerished(ls, Calls(Submit(job)), more);
    CleanExitTold(c, all);
  }
}
