/** What every run of the protocol does, whatever the interleaving. */
module ProtocolResults {
  import opened Options
  import opened Framing
  import opened Protocol
  import opened ProtocolProofs

  // -------------------------------------------------------------------- runs

  /** The labels can happen one after the other from `s`. */
  predicate Possible(c: Config, s: State, ls: seq<Label>)
    decreases |ls|
  {
    ls == [] || (Enabled(c, s, ls[0]) && Possible(c, Apply(c, s, ls[0]), ls[1..]))
  }

  function After(c: Config, s: State, ls: seq<Label>): State
    requires Possible(c, s, ls)
    decreases |ls|
  {
    if ls == [] then s else After(c, Apply(c, s, ls[0]), ls[1..])
  }

  ghost predicate Reachable(c: Config, s: State) {
    exists ls :: Possible(c, Fresh(), ls) && After(c, Fresh(), ls) == s
  }

  lemma {:induction false} RunKeepsInv(c: Config, s: State, ls: seq<Label>)
    requires Sane(c) && Inv(c, s) && Possible(c, s, ls)
    ensures Inv(c, After(c, s, ls))
    decreases |ls|
  {
    if ls != [] {
      StepKeepsInv(c, s, ls[0]);
      RunKeepsInv(c, Apply(c, s, ls[0]), ls[1..]);
    }
  }

  lemma ReachableInv(c: Config, s: State)
    requires Sane(c) && Reachable(c, s)
    ensures Inv(c, s)
  {
    var ls :| Possible(c, Fresh(), ls) && After(c, Fresh(), ls) == s;
    FreshInv(c);
    RunKeepsInv(c, Fresh(), ls);
  }

  lemma {:induction false} Extend(c: Config, s: State, ls: seq<Label>, l: Label)
    requires Possible(c, s, ls) && Enabled(c, After(c, s, ls), l)
    ensures Possible(c, s, ls + [l]) && After(c, s, ls + [l]) == Apply(c, After(c, s, ls), l)
    decreases |ls|
  {
    if ls == [] {
      assert ls + [l] == [l];
    } else {
      Extend(c, Apply(c, s, ls[0]), ls[1..], l);
      assert (ls + [l])[1..] == ls[1..] + [l];
    }
  }

  lemma Prepend(c: Config, s: State, l: Label, ls: seq<Label>)
    requires Enabled(c, s, l) && Possible(c, Apply(c, s, l), ls)
    ensures Possible(c, s, [l] + ls) && After(c, s, [l] + ls) == After(c, Apply(c, s, l), ls)
  {
    assert ([l] + ls)[1..] == ls;
  }

  lemma FreshReachable(c: Config)
    ensures Reachable(c, Fresh())
  {
    assert After(c, Fresh(), []) == Fresh();
  }

  lemma StepReachable(c: Config, s: State, l: Label)
    requires Reachable(c, s) && Enabled(c, s, l)
    ensures Reachable(c, Apply(c, s, l))
  {
    var ls :| Possible(c, Fresh(), ls) && After(c, Fresh(), ls) == s;
    Extend(c, Fresh(), ls, l);
  }

  // ------------------------------------------------------------------ safety

  /** Every answer of every run keeps the contract: delivery exactly once and of the
      entry's own outcome, no entry behind a None, and a reaped worker behind a None or an
      exception. */
  lemma AnswersKeepContract(c: Config, s: State)
    requires Sane(c) && Reachable(c, s) && s.main.Done?
    ensures Contract(s.main.answer, s.entries, s.made, s.worker.Dead?)
    ensures s.main.answer.Delivered? || s.main.answer.Unpicklable? ==> !s.killed
  {
    ReachableInv(c, s);
  }

  /** handle_job is never entered with anything but the submitted job. */
  lemma OwnJobOnly(c: Config, s: State)
    requires Sane(c) && Reachable(c, s) && s.worker.Run?
    ensures s.worker.job == s.job && s.entries == 1 && Busy(s.main)
  {
    ReachableInv(c, s);
  }

  /** Which event is behind a broken worker, and behind end of file inside a reply. */
  lemma BrokenHasACause(c: Config, s: State)
    requires Sane(c) && Reachable(c, s)
    ensures Breaking(s.main) ==> s.path.Bad? || s.path.UserShut? || DiedOutside(s.worker)
    ensures Failing(s.main, TornReply) ==> DiedOutside(s.worker)
    ensures Retrying(s.main) ==> s.path.Clean? || s.path.UserShut? || DiedOutside(s.worker)
  {
    ReachableInv(c, s);
  }

  /** End of file while main waits for a reply is taken for a broken worker, unless it falls
      inside a reply at an offset where no read begins: then it is an OSError. */
  lemma EofDiagnosis(c: Config, s: State)
    requires Sane(c) && Reachable(c, s) && MainCan(c, s, ReadEof)
    ensures MainDo(c, s, ReadEof).main ==
            if s.made.Some? && !SectionStart(c.dumps(Result(s.made.value)), s.results.read - s.results.mark)
            then Fail(TornReply) else Drop
  {
    ReachableInv(c, s);
    MainHearsDue(c, s);
    var p := s.results;
    if s.replyDue {
      var k := p.read - p.mark;
      assert Current(p) == p.stream[p.mark..][..k] == Frame(Due(c, s))[..k];
      CutDecodes(Due(c, s), k);
    }
  }

  /** None is answered only while main's job pipe is open: a submission after shutdown is
      never answered with None. */
  lemma ShutIsNeverRetried(c: Config, s: State)
    requires Sane(c) && Reachable(c, s) && !s.mainOpen
    ensures !Retrying(s.main)
    ensures s.main.Shut? ==> forall job :: CallDo(c, s, SubmitShut(job)).main == Fail(PipeShut)
  {
    ReachableInv(c, s);
    if s.main.Shut? {
      forall job
        ensures CallDo(c, s, SubmitShut(job)).main == Fail(PipeShut)
      {
        ShutFails(c, s, job);
      }
    }
  }

  lemma ShutFails(c: Config, s: State, job: Payload)
    requires s.main.Shut?
    ensures CallDo(c, s, SubmitShut(job)).main == Fail(PipeShut)
  {
  }

  /** An idle timeout or retirement is never reported as a broken worker, whether or not
      the read end is closed early: a submission that meets it before its job is entered
      ends in None, unless it is cancelled or comes after shutdown. */
  lemma CleanExitIsNeverBroken(c: Config, s: State)
    requires Sane(c) && Reachable(c, s) && s.path.Clean? && !DiedOutside(s.worker)
    ensures !Breaking(s.main) && !Failing(s.main, TornReply)
    ensures s.main.Done? && s.entries == 0 ==>
              || s.main.answer.Retry? || s.main.answer.Unpicklable?
              || s.main.answer == Raised(Cancelled) || s.main.answer == Raised(PipeShut)
  {
    ReachableInv(c, s);
  }

  /** A failing init or retire is never mistaken for a clean exit: the worker keeps
      accepting the job, and the submission cannot end in None, nor in an outcome unless the
      job had run before the failure. */
  lemma FailureIsNeverRetried(c: Config, s: State)
    requires Sane(c) && Reachable(c, s) && s.path.Bad? && !DiedOutside(s.worker)
    ensures s.main.Send? ==> s.readOpen
    ensures !Retrying(s.main)
    ensures s.main.Done? && s.entries == 0 ==>
              || s.main.answer.Unpicklable? || s.main.answer == Raised(BrokenWorker)
              || s.main.answer == Raised(Cancelled) || s.main.answer == Raised(PipeShut)
  {
    ReachableInv(c, s);
  }

  /** Between submissions nothing of an earlier one is left: no job bytes at all, and in
      the result pipe at most the sentinel. */
  lemma NothingStale(c: Config, s: State)
    requires Sane(c) && Reachable(c, s) && s.main.Idle?
    ensures InFlight(s.jobs) == 0 && Unwritten(s.jobs) == 0
    ensures var p := s.results; p.stream[p.read..p.written] in {[], SentinelFrame(c)}
    ensures s.results.read == s.results.mark
  {
    ReachableInv(c, s);
    var p := s.results;
    assert p.stream[p.read..p.written] == p.stream[p.mark..];
    assert DueFrames(c, s) == if s.noneDue then SentinelFrame(c) else [];
  }

  /** The sentinel always fits unless main is itself reading, or killing, the worker. */
  lemma SentinelFits(c: Config, s: State)
    requires Sane(c) && Reachable(c, s) && s.worker.Sentinel?
    requires !s.main.Receive? && !s.main.Fail? && !s.main.Killed?
    ensures InFlight(s.results) == 0 && ExitCan(c, s, PutSentinel)
  {
    ReachableInv(c, s);
  }

  /** A fresh worker can be sent a job ... */
  lemma Sent(c: Config, job: Payload) returns (s: State)
    requires Sane(c) && |Frame(job)| <= PIPE_BUF
    ensures Reachable(c, s) && s.main.Receive? && s.worker.Poll?
    ensures s.jobs == Cursors(Frame(job), |Frame(job)|, 0, 0) && s.results == Fresh().results
  {
    s := Fresh();
    FreshReachable(c);
    StepReachable(c, s, Users(InitOk)); s := Apply(c, s, Users(InitOk));
    StepReachable(c, s, Calls(Submit(job))); s := Apply(c, s, Calls(Submit(job)));
    var n := |Frame(job)|;
    StepReachable(c, s, Mains(Write(n))); s := Apply(c, s, Mains(Write(n)));
    assert s.jobs.stream == Frame(job);
  }

  /** ... come to run it ... */
  lemma Handed(c: Config, job: Payload) returns (s: State)
    requires Sane(c) && |job| == 0
    ensures Reachable(c, s) && s.main.Receive? && s.worker.Run?
    ensures s.results == Fresh().results
  {
    s := Sent(c, job);
    StepReachable(c, s, Loops(PollReady)); s := Apply(c, s, Loops(PollReady));
    NothingRead(s.jobs);
    var n := |Frame(job)|;
    StepReachable(c, s, Loops(Take(n))); s := Apply(c, s, Loops(Take(n)));
    assert s.jobs.stream[s.jobs.mark..] == Frame(job) + [];
    ReadingFrame(s.jobs, job, []);
    StepReachable(c, s, Loops(Start)); s := Apply(c, s, Loops(Start));
  }

  /** ... and fill the pipe with its reply. */
  lemma FullPipe(c: Config, job: Payload, d: Datum) returns (s: State)
    requires Sane(c) && |job| == 0 && |ReplyFrame(c, Value(d))| == c.capacity == PIPE_BUF
    ensures Reachable(c, s) && s.main.Receive? && s.worker.Retire? && InFlight(s.results) == c.capacity
  {
    s := Handed(c, job);
    StepReachable(c, s, Users(JobEnds(Value(d)))); s := Apply(c, s, Users(JobEnds(Value(d))));
    StepReachable(c, s, Loops(Put(c.capacity))); s := Apply(c, s, Loops(Put(c.capacity)));
  }

  lemma SentinelBlocked() returns (c: Config, s: State)
    ensures Sane(c) && Reachable(c, s) && s.main.Receive? && s.worker.Sentinel? && !s.killed && !ExitCan(c, s, PutSentinel)
  {
    c := Plain(PIPE_BUF, false);
    PlainIsSane(PIPE_BUF, false);
    var d: Datum := seq(PIPE_BUF - 5, _ => 0);
    var full := FullPipe(c, [], d);
    StepReachable(c, full, Users(RetireQuits));
    s := Apply(c, full, Users(RetireQuits));
    ReachableInv(c, s);
  }

  /** And each of those phases is a real exception: with a full pipe in front of it the
      sentinel waits for a main that is reading, has been cancelled, or has sent its kill. */
  lemma SentinelMayWait() returns (c: Config, reading: State, cancelled: State, killing: State)
    ensures Sane(c) && Reachable(c, reading) && Reachable(c, cancelled) && Reachable(c, killing)
    ensures reading.main.Receive? && cancelled.main == Fail(Cancelled) && killing.main == Killed(Cancelled)
    ensures forall s :: s in {reading, cancelled, killing} ==> s.worker.Sentinel? && !ExitCan(c, s, PutSentinel)
  {
    c, reading := SentinelBlocked();
    StepReachable(c, reading, Worlds(Cancel));
    cancelled := Apply(c, reading, Worlds(Cancel));
    StepReachable(c, cancelled, Mains(Kill));
    killing := Apply(c, cancelled, Mains(Kill));
  }

  /** The first k bytes of the reply have come through the pipe, and more are to come. */
  ghost predicate Midway(c: Config, s: State, o: Outcome, k: nat) {
    && Reachable(c, s) && s.main.Receive? && s.worker.Reply? && s.made == Some(o)
    && k < |ReplyFrame(c, o)| && s.results == Cursors(ReplyFrame(c, o), k, k, 0)
  }

  lemma ReplyBegun(c: Config, o: Outcome) returns (s: State)
    requires Sane(c)
    ensures Midway(c, s, o, 0)
  {
    s := Handed(c, []);
    StepReachable(c, s, Users(JobEnds(o))); s := Apply(c, s, Users(JobEnds(o)));
    assert s.results.stream == ReplyFrame(c, o);
  }

  /** One write and one read of n bytes. */
  lemma ReplyGoesOn(c: Config, s: State, o: Outcome, k: nat, n: nat) returns (t: State)
    requires Sane(c) && Midway(c, s, o, k) && Writable(c, s.results, c.dumps(Result(o)), n)
    requires k + n < |ReplyFrame(c, o)| && n <= Need(ReplyFrame(c, o)[..k])
    ensures Midway(c, t, o, k + n)
  {
    StepReachable(c, s, Loops(Put(n))); t := Apply(c, s, Loops(Put(n)));
    StepReachable(c, t, Mains(Read(n))); t := Apply(c, t, Mains(Read(n)));
  }

  lemma NeedAtSections(m: Payload)
    ensures Need(Frame(m)[..0]) == 4 && Need(Frame(m)[..4]) == if Extended(m) then 8 else |m|
    ensures Extended(m) ==> Need(Frame(m)[..12]) == |m|
  {
    Parts(Lead(m), Length(m), m, 4);
    if Extended(m) {
      Parts(Lead(m), Length(m), m, 12);
    }
  }

  /** The complete header of a reply of more than PIPE_BUF bytes, written and read. */
  lemma HeaderThrough(c: Config, o: Outcome) returns (s: State)
    requires Sane(c) && |ReplyFrame(c, o)| > PIPE_BUF
    ensures Midway(c, s, o, 4)
  {
    s := ReplyBegun(c, o);
    NeedAtSections(c.dumps(Result(o)));
    s := ReplyGoesOn(c, s, o, 0, 4);
  }

  /** Some of such a reply, up to where no read begins. */
  lemma Halfway(c: Config, o: Outcome) returns (s: State, k: nat)
    requires Sane(c) && |ReplyFrame(c, o)| > PIPE_BUF
    ensures Midway(c, s, o, k) && !SectionStart(c.dumps(Result(o)), k)
  {
    var m := c.dumps(Result(o));
    NeedAtSections(m);
    if |m| <= LARGE {
      s := ReplyBegun(c, o);
      s := ReplyGoesOn(c, s, o, 0, 1);
      k := 1;
    } else {
      s := HeaderThrough(c, o);
      k := 4;
      if Extended(m) {
        s := ReplyGoesOn(c, s, o, 4, 8);
        k := 12;
      }
      s := ReplyGoesOn(c, s, o, k, 1);
      k := k + 1;
    }
  }

  /** The worker dies, and main sees the end of file. */
  lemma Severed(c: Config, s: State, o: Outcome, k: nat) returns (t: State)
    requires Sane(c) && Midway(c, s, o, k)
    ensures Reachable(c, t) && t.worker.Dead? && t.made == Some(o)
    ensures t.results.read - t.results.mark == k
    ensures t.main == if SectionStart(c.dumps(Result(o)), k) then Drop else Fail(TornReply)
  {
    StepReachable(c, s, Worlds(Perish(1))); t := Apply(c, s, Worlds(Perish(1)));
    assert t.results.stream[t.results.mark..] == ReplyFrame(c, o) + [];
    ReadingFrame(t.results, c.dumps(Result(o)), []);
    EofDiagnosis(c, t);
    StepReachable(c, t, Mains(ReadEof)); t := Apply(c, t, Mains(ReadEof));
  }

  /** A run that ends in the OSError, for every reply of more than PIPE_BUF bytes. */
  lemma ReplyTorn(c: Config, o: Outcome) returns (s: State)
    requires Sane(c) && |ReplyFrame(c, o)| > PIPE_BUF
    ensures Reachable(c, s) && s.main == Done(Raised(TornReply)) && s.made == Some(o)
  {
    var k;
    s, k := Halfway(c, o);
    s := Severed(c, s, o, k);
    StepReachable(c, s, Mains(Kill)); s := Apply(c, s, Mains(Kill));
    StepReachable(c, s, Mains(KillReaped)); s := Apply(c, s, Mains(KillReaped));
  }

  /** A reply can be torn if and only if it is too long to be written in one piece. */
  lemma TornReplies(c: Config, o: Outcome)
    requires Sane(c)
    ensures (exists s :: Reachable(c, s) && Failing(s.main, TornReply) && s.made == Some(o))
            <==> |ReplyFrame(c, o)| > PIPE_BUF
  {
    forall s | Reachable(c, s) && Failing(s.main, TornReply) && s.made == Some(o)
      ensures |ReplyFrame(c, o)| > PIPE_BUF
    {
      ReachableInv(c, s);
    }
    if |ReplyFrame(c, o)| > PIPE_BUF {
      var s := ReplyTorn(c, o);
    }
  }

  /** A run that ends in the broken-worker error although the reply had begun: its complete
      header, and then no more. */
  lemma ReplyCutAtItsHeader(c: Config, o: Outcome) returns (s: State)
    requires Sane(c) && |ReplyFrame(c, o)| > PIPE_BUF
    ensures Reachable(c, s) && s.main == Done(Raised(BrokenWorker)) && s.made == Some(o)
    ensures s.results.read - s.results.mark == 4
  {
    s := HeaderThrough(c, o);
    s := Severed(c, s, o, 4);
    StepReachable(c, s, Mains(DropClose)); s := Apply(c, s, Mains(DropClose));
    StepReachable(c, s, Mains(Reaped)); s := Apply(c, s, Mains(Reaped));
    StepReachable(c, s, Mains(Kill)); s := Apply(c, s, Mains(Kill));
    StepReachable(c, s, Mains(KillReaped)); s := Apply(c, s, Mains(KillReaped));
  }

  /** A run that ends in the ClosedResourceError: shut down, and submit. */
  lemma SubmittedAfterShutdown(c: Config, job: Payload) returns (s: State)
    requires Sane(c)
    ensures Reachable(c, s) && s.main == Done(Raised(PipeShut)) && s.job == job && s.entries == 0
  {
    s := Fresh();
    FreshReachable(c);
    StepReachable(c, s, Calls(Shutdown)); s := Apply(c, s, Calls(Shutdown));
    StepReachable(c, s, Calls(SubmitShut(job))); s := Apply(c, s, Calls(SubmitShut(job)));
    StepReachable(c, s, Mains(Kill)); s := Apply(c, s, Mains(Kill));
    StepReachable(c, s, Exits(Die)); s := Apply(c, s, Exits(Die));
    StepReachable(c, s, Mains(KillReaped)); s := Apply(c, s, Mains(KillReaped));
  }

  /** Shut down, and perhaps submitted to since then. */
  predicate Shutish(m: Main) {
    m.Shut? || Failing(m, PipeShut)
  }

  lemma ShutCallStays(c: Config, s: State, l: Call)
    requires CallCan(c, s, l) && Shutish(s.main)
    ensures Shutish(CallDo(c, s, l).main)
  {
    match l
    case ShutKill =>
    case SubmitShut(_) =>
  }

  lemma ShutMainStays(c: Config, s: State, l: MainStep)
    requires MainCan(c, s, l) && Shutish(s.main)
    ensures Shutish(MainDo(c, s, l).main)
  {
    match l
    case Kill =>
    case KillReaped =>
  }

  lemma ShutStays(c: Config, s: State, l: Label)
    requires Enabled(c, s, l) && Shutish(s.main)
    ensures Shutish(Apply(c, s, l).main)
  {
    match l
    case Calls(k) => ShutCallStays(c, s, k);
    case Mains(k) => ShutMainStays(c, s, k);
    case Loops(k) => LoopLeavesUndisturbed(c, s, k);
    case Exits(k) => ExitLeavesUndisturbed(c, s, k);
    case Users(k) => UserLeavesUndisturbed(c, s, k);
    case Worlds(k) => WorldLeavesUndisturbed(c, s, k);
  }

  /** Whatever happens after shutdown, and however often: the only answer there is is that
      error. */
  lemma {:induction false} ShutForGood(c: Config, s: State, ls: seq<Label>)
    requires Shutish(s.main) && Possible(c, s, ls)
    ensures Shutish(After(c, s, ls).main)
    ensures After(c, s, ls).main.Done? ==> After(c, s, ls).main.answer == Raised(PipeShut)
    decreases |ls|
  {
    if ls != [] {
      ShutStays(c, s, ls[0]);
      ShutForGood(c, Apply(c, s, ls[0]), ls[1..]);
    }
  }

  // ---------------------------------------------------------------- progress

  /** Steps that need no user code, clock or accident. */
  predicate System(l: Label) {
    l.Mains? || l.Loops? || l.Exits?
  }

  lemma JobReadable(c: Config, s: State)
    requires Sane(c) && Inv(c, s) && !s.taken && (s.main.Send? || s.main.Receive? || s.main.AwaitBroken?)
    ensures s.jobs.read < |s.jobs.stream| ==> Wants(s.jobs) > 0
    ensures s.jobs.read == |s.jobs.stream| ==> Wants(s.jobs) == 0 && Heard(s.jobs).Message?
  {
    assert s.jobs.stream[s.jobs.mark..] == Frame(s.job) + [];
    ReadingFrame(s.jobs, s.job, []);
  }

  /** A worker past its loop always has a step of its own, unless it must wait for room for
      its sentinel or for job bytes to drain. */
  lemma ExitStepEnabled(c: Config, s: State) returns (l: Label)
    requires Sane(c) && Inv(c, s) && !LoopPhase(s.worker) && !s.worker.Dead?
    requires s.worker.Sentinel? ==> InFlight(s.results) == 0
    requires s.worker.Drain? ==> if InFlight(s.jobs) > 0 then Wants(s.jobs) > 0 else !s.mainOpen
    ensures l.Exits? && l != Exits(Die) && Enabled(c, s, l)
  {
    match s.worker
    case CloseRecv => l := Exits(CloseReadEnd);
    case Sentinel => l := Exits(PutSentinel);
    case CloseSend => l := Exits(CloseWriteEnd);
    case GraceSend => l := Exits(GraceCloseWrite);
    case GraceRecv => l := Exits(GraceCloseRead);
    case BadSend => l := Exits(BadCloseWrite);
    case Drain => l := Exits(if InFlight(s.jobs) > 0 then DrainTake(1) else DrainEof(1));
    case Leaving(_) => l := Exits(Exit);
  }

  /** An empty pipe always takes something. */
  lemma SomeOf(c: Config, p: Pipe, m: Payload) returns (k: nat)
    requires Sane(c) && InFlight(p) == 0 && Unwritten(p) > 0
    ensures Writable(c, p, m, k)
  {
    var piece := Piece(|m|, Unwritten(p));
    k := if piece <= PIPE_BUF then piece else 1;
  }

  lemma SendProgress(c: Config, s: State) returns (l: Label)
    requires Sane(c) && Inv(c, s) && s.main.Send? && !InUserCode(s.worker)
    ensures System(l) && l != Mains(LoadFails) && Enabled(c, s, l) && (l.Exits? ==> !LoopPhase(s.worker))
  {
    if !s.readOpen {
      l := Mains(WriteFails);
    } else if InFlight(s.jobs) == 0 {
      var k := SomeOf(c, s.jobs, s.job);
      l := Mains(Write(k));
    } else {
      JobReadable(c, s);
      if s.worker.Poll? {
        l := Loops(PollReady);
      } else if s.worker.Recv? {
        l := Loops(Take(1));
      } else {
        l := ExitStepEnabled(c, s);
      }
    }
  }

  lemma ReceiveProgress(c: Config, s: State) returns (l: Label)
    requires Sane(c) && Inv(c, s) && s.main.Receive? && !InUserCode(s.worker)
    ensures System(l) && l != Mains(LoadFails) && Enabled(c, s, l) && (l.Exits? ==> !LoopPhase(s.worker))
  {
    MainHearsDue(c, s);
    if Wants(s.results) == 0 {
      l := Mains(Load);
    } else if InFlight(s.results) > 0 {
      l := Mains(Read(1));
    } else if !s.writeOpen {
      l := Mains(ReadEof);
    } else if s.worker.Reply? {
      var k := SomeOf(c, s.results, c.dumps(Result(s.made.value)));
      l := Loops(Put(k));
    } else if s.worker.Poll? || s.worker.Recv? {
      JobReadable(c, s);
      if s.worker.Poll? {
        l := Loops(PollReady);
      } else if s.jobs.read < |s.jobs.stream| {
        l := Loops(Take(1));
      } else {
        l := Loops(Start);
      }
    } else {
      l := ExitStepEnabled(c, s);
    }
  }

  lemma AwaitProgress(c: Config, s: State) returns (l: Label)
    requires Sane(c) && Inv(c, s) && (s.main.AwaitExit? || s.main.AwaitBroken?)
    ensures System(l) && l != Mains(LoadFails) && Enabled(c, s, l) && (!s.worker.Dead? ==> l.Exits?)
  {
    if s.worker.Dead? {
      l := Mains(Reaped);
    } else {
      if s.worker.Drain? && !s.taken {
        JobReadable(c, s);
      }
      l := ExitStepEnabled(c, s);
    }
  }

  lemma InvProgress(c: Config, s: State) returns (l: Label)
    requires Sane(c) && Inv(c, s) && Busy(s.main)
    requires s.main.Send? || s.main.Receive? ==> !InUserCode(s.worker)
    ensures System(l) && Enabled(c, s, l)
    ensures !LoopPhase(s.worker) ==> l != Mains(LoadFails)
  {
    match s.main
    case Send => l := SendProgress(c, s);
    case Receive => l := ReceiveProgress(c, s);
    case Drop => l := Mains(DropClose);
    case AwaitExit => l := AwaitProgress(c, s);
    case AwaitBroken => l := AwaitProgress(c, s);
    case Fail(_) => l := Mains(Kill);
    case Killed(_) => l := if s.worker.Dead? then Mains(KillReaped) else Exits(Die);
  }

  /** No deadlock with bounded pipes, for jobs and replies of any size: while a submission
      is in progress some side can step, unless main waits for user code. */
  lemma Progress(c: Config, s: State) returns (l: Label)
    requires Sane(c) && Reachable(c, s) && Busy(s.main)
    requires s.main.Send? || s.main.Receive? ==> !InUserCode(s.worker)
    ensures System(l) && Enabled(c, s, l)
  {
    ReachableInv(c, s);
    l := InvProgress(c, s);
  }

  // ------------------------------------------------------------- termination

  /** Stages the worker has ahead of it; `taken` says that it has consumed the job. */
  function WorkerRank(w: Worker, taken: bool): nat {
    match w
    case Init => if taken then 16 else 20
    case Retire => if taken then 15 else 20
    case Poll => if taken then 14 else 19
    case Recv => if taken then 13 else 18
    case Run(_) => 17
    case Reply => 16
    case CloseRecv => 12
    case Sentinel => 11
    case CloseSend => 10
    case GraceSend => 9
    case GraceRecv => 8
    case BadSend => 7
    case Drain => 6
    case Leaving(_) => 5
    case Dead(_, _) => 0
  }

  function MainRank(m: Main): nat {
    match m
    case Send => 8
    case Receive => 7
    case Drop => 6
    case AwaitBroken => 5
    case AwaitExit => 4
    case Fail(_) => 3
    case Killed(_) => 2
    case _ => 0
  }

  /** Every byte still has to be written and then read. */
  function Traffic(jobs: Pipe, results: Pipe): nat {
    2 * Unwritten(jobs) + InFlight(jobs) + 2 * Unwritten(results) + InFlight(results)
  }

  predicate Below(t: State, s: State) {
    var wt, ws := WorkerRank(t.worker, t.taken), WorkerRank(s.worker, s.taken);
    var mt, ms := MainRank(t.main), MainRank(s.main);
    || wt < ws
    || (wt == ws && mt < ms)
    || (wt == ws && mt == ms && Traffic(t.jobs, t.results) < Traffic(s.jobs, s.results))
  }

  lemma LivingRank(w: Worker, taken: bool)
    requires !w.Dead?
    ensures WorkerRank(w, taken) > 0
  {
  }

  lemma LoadDescends(c: Config, s: State)
    requires MainCan(c, s, Load)
    ensures Below(Loaded(c, s), s)
  {
  }

  lemma MainDescends(c: Config, s: State, l: MainStep)
    requires Busy(s.main) && MainCan(c, s, l)
    ensures Below(MainDo(c, s, l), s)
  {
    match l
    case Write(_) =>
    case WriteFails =>
    case Read(_) =>
    case ReadEof =>
    case Load => LoadDescends(c, s);
    case LoadFails =>
    case DropClose =>
    case Reaped =>
    case Kill =>
    case KillReaped =>
  }

  lemma LoopDescends(c: Config, s: State, l: LoopStep)
    requires LoopCan(c, s, l) && (l.Start? ==> !s.taken) && (s.worker.Reply? ==> s.taken)
    ensures Below(LoopDo(c, s, l), s)
  {
  }

  /** A step on the way out takes the worker to a later stage, or empties its pipe. */
  predicate Outward(s: State, t: State) {
    && t.main == s.main
    && WorkerRank(t.worker, t.taken) <= WorkerRank(s.worker, s.taken)
    && InFlight(t.jobs) <= InFlight(s.jobs)
    && (|| WorkerRank(t.worker, t.taken) < WorkerRank(s.worker, s.taken)
        || (InFlight(t.jobs) < InFlight(s.jobs) && Unwritten(t.jobs) == Unwritten(s.jobs) && t.results == s.results))
  }

  lemma ClosingIsOutward(c: Config, s: State, l: ExitStep)
    requires ExitCan(c, s, l) && !l.DrainTake? && !l.Die?
    ensures Outward(s, ExitDo(c, s, l))
  {
    match l
    case CloseReadEnd =>
    case PutSentinel =>
    case CloseWriteEnd =>
    case GraceCloseWrite =>
    case GraceCloseRead =>
    case BadCloseWrite =>
    case DrainEof(_) =>
    case Exit =>
  }

  lemma DrainingIsOutward(c: Config, s: State, k: nat)
    requires ExitCan(c, s, DrainTake(k))
    ensures Outward(s, ExitDo(c, s, DrainTake(k)))
  {
  }

  lemma ExitIsOutward(c: Config, s: State, l: ExitStep)
    requires ExitCan(c, s, l)
    ensures Outward(s, ExitDo(c, s, l))
  {
    match l
    case DrainTake(k) => DrainingIsOutward(c, s, k);
    case Die => LivingRank(s.worker, s.taken);
    case _ => ClosingIsOutward(c, s, l);
  }

  lemma OutwardIsBelow(s: State, t: State)
    requires Outward(s, t)
    ensures Below(t, s)
  {
  }

  lemma UserDescends(c: Config, s: State, l: UserStep)
    requires Busy(s.main) && UserCan(c, s, l)
    ensures Below(UserDo(c, s, l), s)
  {
  }

  lemma WorldDescends(c: Config, s: State, l: WorldStep)
    requires Busy(s.main) && WorldCan(c, s, l)
    ensures Below(WorldDo(c, s, l), s)
  {
  }

  /** While a submission is in progress every step, of whichever side and kind, descends. */
  lemma StepDescends(c: Config, s: State, l: Label)
    requires Sane(c) && Inv(c, s) && Busy(s.main) && Enabled(c, s, l)
    ensures Below(Apply(c, s, l), s)
  {
    match l
    case Calls(_) =>
    case Mains(m) => MainDescends(c, s, m);
    case Loops(w) =>
      assert !(w.Start? && s.taken) by {
        if s.taken {
          assert s.jobs.read == s.jobs.mark;
          NothingRead(s.jobs);
        }
      }
      LoopDescends(c, s, w);
    case Exits(w) => ExitIsOutward(c, s, w); OutwardIsBelow(s, ExitDo(c, s, w));
    case Users(u) => UserDescends(c, s, u);
    case Worlds(x) => WorldDescends(c, s, x);
  }

  ghost predicate Follows(c: Config, s: State, t: State) {
    exists l :: Enabled(c, s, l) && Apply(c, s, l) == t
  }

  ghost predicate FollowsAt(c: Config, run: nat -> State, k: nat) {
    Follows(c, run(k), run(k + 1))
  }

  ghost predicate IsRun(c: Config, run: nat -> State) {
    forall k: nat :: FollowsAt(c, run, k)
  }

  lemma FollowerDescends(c: Config, s: State, t: State)
    requires Sane(c) && Inv(c, s) && Busy(s.main) && Follows(c, s, t)
    ensures Inv(c, t) && Below(t, s)
  {
    var l :| Enabled(c, s, l) && Apply(c, s, l) == t;
    StepDescends(c, s, l);
    StepKeepsInv(c, s, l);
  }

  /** `first`, `second` and `third` are the ranks at i. */
  lemma EndsFrom(c: Config, run: nat -> State, i: nat, first: nat, second: nat, third: nat) returns (j: nat)
    requires Sane(c) && Inv(c, run(i)) && IsRun(c, run)
    requires first == WorkerRank(run(i).worker, run(i).taken) && second == MainRank(run(i).main)
    requires third == Traffic(run(i).jobs, run(i).results)
    ensures !Busy(run(j).main)
    decreases first, second, third
  {
    j := i;
    if Busy(run(i).main) {
      var t := run(i + 1);
      assert FollowsAt(c, run, i);
      FollowerDescends(c, run(i), t);
      j := EndsFrom(c, run, i + 1, WorkerRank(t.worker, t.taken), MainRank(t.main), Traffic(t.jobs, t.results));
    }
  }

  /** There is no infinite submission: with `Progress`, every submission comes to an answer
      unless user code in the worker runs for ever. */
  lemma SubmissionEnds(c: Config, run: nat -> State)
    requires Sane(c) && Reachable(c, run(0)) && IsRun(c, run)
    ensures exists j: nat :: !Busy(run(j).main)
  {
    ReachableInv(c, run(0));
    var s := run(0);
    var j := EndsFrom(c, run, 0, WorkerRank(s.worker, s.taken), MainRank(s.main), Traffic(s.jobs, s.results));
  }

  // ---------------------------------------------------------------- delivery

  /** A submission on which nothing has gone wrong, and whose outcome, if there is one yet,
      is this. */
  predicate OnCourse(s: State, o: Outcome) {
    && (s.main.Send? || s.main.Receive? || s.main == Done(Delivered(o)))
    && LoopPhase(s.worker)
    && (s.made.Some? && Busy(s.main) ==> s.made.value == o)
  }

  lemma MainStaysOnCourse(c: Config, s: State, o: Outcome, l: MainStep)
    requires Sane(c) && Inv(c, s) && OnCourse(s, o) && Busy(s.main) && l != LoadFails && MainCan(c, s, l)
    ensures OnCourse(MainDo(c, s, l), o)
  {
    MainHearsDue(c, s);
    if l.Load? {
      assert s.replyDue;
      assert c.loads(Due(c, s)) == Some(Result(o));
    }
  }

  lemma LoopStaysOnCourse(c: Config, s: State, o: Outcome, l: LoopStep)
    requires Sane(c) && Inv(c, s) && OnCourse(s, o) && Busy(s.main) && LoopCan(c, s, l)
    ensures OnCourse(LoopDo(c, s, l), o)
  {
  }

  /** A step that keeps the submission on its course to this outcome. */
  lemma StepOnCourse(c: Config, s: State, o: Outcome) returns (l: Label)
    requires Sane(c) && Inv(c, s) && OnCourse(s, o) && Busy(s.main)
    ensures Enabled(c, s, l) && OnCourse(Apply(c, s, l), o)
  {
    if InUserCode(s.worker) {
      l := Users(if s.worker.Init? then InitOk else if s.worker.Run? then JobEnds(o) else RetireKeeps);
    } else {
      if s.main.Send? {
        l := SendProgress(c, s);
      } else {
        l := ReceiveProgress(c, s);
      }
      match l
      case Mains(m) => MainStaysOnCourse(c, s, o, m);
      case Loops(w) => LoopStaysOnCourse(c, s, o, w);
      case Exits(_) =>
    }
  }

  lemma CourseEnds(c: Config, s: State, o: Outcome) returns (ls: seq<Label>)
    requires Sane(c) && Inv(c, s) && OnCourse(s, o)
    ensures Possible(c, s, ls) && After(c, s, ls).main == Done(Delivered(o))
    decreases WorkerRank(s.worker, s.taken), MainRank(s.main), Traffic(s.jobs, s.results)
  {
    if s.main.Done? {
      ls := [];
    } else {
      var l := StepOnCourse(c, s, o);
      StepDescends(c, s, l);
      StepKeepsInv(c, s, l);
      var rest := CourseEnds(c, Apply(c, s, l), o);
      ls := [l] + rest;
      Prepend(c, s, l, rest);
    }
  }

  /** Delivery is possible throughout: whenever a worker in its loop is idle, any job, of
      whatever size, can be submitted and any outcome of it delivered, through pipes of
      whatever size. */
  lemma AnythingCanBeDelivered(c: Config, s: State, job: Payload, o: Outcome) returns (ls: seq<Label>)
    requires Sane(c) && Reachable(c, s) && s.main.Idle? && LoopPhase(s.worker)
    ensures ls != [] && ls[0] == Calls(Submit(job))
    ensures Possible(c, s, ls) && After(c, s, ls).main == Done(Delivered(o))
  {
    ReachableInv(c, s);
    var l := Calls(Submit(job));
    StepKeepsInv(c, s, l);
    var rest := CourseEnds(c, Apply(c, s, l), o);
    ls := [l] + rest;
    Prepend(c, s, l, rest);
  }

  predicate Waiting(m: Main) {
    m.AwaitExit? || m.AwaitBroken?
  }

  /** Once main waits for the process, the worker is out of its loop and takes at most
      `12 + capacity` further steps of its own, draining included. */
  lemma {:induction false} ExitIsBounded(c: Config, s: State, ls: seq<Label>)
    requires Sane(c) && Inv(c, s) && Waiting(s.main) && Possible(c, s, ls) && forall l :: l in ls ==> l.Exits?
    ensures !LoopPhase(s.worker)
    ensures |ls| <= WorkerRank(s.worker, s.taken) + InFlight(s.jobs) <= 12 + c.capacity
    decreases |ls|
  {
    if ls != [] {
      assert ls[0] in ls;
      StepKeepsInv(c, s, ls[0]);
      ExitStepShrinks(c, s, ls[0].exit);
      ExitIsBounded(c, Apply(c, s, ls[0]), ls[1..]);
    }
  }

  lemma ExitStepShrinks(c: Config, s: State, l: ExitStep)
    requires ExitCan(c, s, l)
    ensures ExitDo(c, s, l).main == s.main
    ensures var t := ExitDo(c, s, l);
            WorkerRank(t.worker, t.taken) + InFlight(t.jobs) < WorkerRank(s.worker, s.taken) + InFlight(s.jobs)
  {
    ExitIsOutward(c, s, l);
  }

  // ---------------------------------------------------------------- shutdown

  /** Steps a worker that nobody uses can still take. */
  function Remaining(s: State): nat {
    WorkerRank(s.worker, s.taken) + InFlight(s.jobs)
  }

  lemma UnusedLoopShrinks(c: Config, s: State, l: LoopStep)
    requires Sane(c) && Inv(c, s) && LoopCan(c, s, l) && Unused(s)
    ensures Remaining(LoopDo(c, s, l)) < Remaining(s)
  {
    if s.worker.Recv? {
      NothingRead(s.jobs);
    }
    match l
    case PollReady =>
    case Take(_) =>
    case TakeEof =>
  }

  lemma UnusedUserShrinks(c: Config, s: State, l: UserStep)
    requires Sane(c) && Inv(c, s) && UserCan(c, s, l) && Unused(s)
    ensures Remaining(UserDo(c, s, l)) < Remaining(s)
  {
    match l
    case InitOk =>
    case InitRaises(_) =>
    case RetireKeeps =>
    case RetireQuits =>
    case RetireRaises(_) =>
  }

  lemma UnusedWorldShrinks(c: Config, s: State, l: WorldStep)
    requires WorldCan(c, s, l) && Unused(s)
    ensures Remaining(WorldDo(c, s, l)) < Remaining(s)
  {
    match l
    case PollExpires =>
    case Perish(_) => LivingRank(s.worker, s.taken);
  }

  lemma UnusedMainRests(c: Config, s: State, l: Label)
    requires Unused(s) && !l.Calls? && Enabled(c, s, l)
    ensures l.Loops? || l.Exits? || l.Users? || l.Worlds?
  {
  }

  /** A worker nobody uses moves only towards its end: it has no job to run. */
  lemma UnusedShrinks(c: Config, s: State, l: Label)
    requires Sane(c) && Inv(c, s) && Unused(s) && !l.Calls? && Enabled(c, s, l)
    ensures Remaining(Apply(c, s, l)) < Remaining(s)
  {
    UnusedMainRests(c, s, l);
    if l.Loops? {
      UnusedLoopShrinks(c, s, l.loop);
    } else if l.Exits? {
      ExitStepShrinks(c, s, l.exit);
    } else if l.Users? {
      UnusedUserShrinks(c, s, l.user);
    } else {
      UnusedWorldShrinks(c, s, l.world);
    }
  }

  /** A step of worker_behavior that needs nobody else. */
  predicate OwnStep(l: Label) {
    (l.Loops? || l.Exits?) && l != Exits(Die)
  }

  /** A worker that has been told to shut down steps out by itself, unless it is in user
      code. */
  lemma ShutProgress(c: Config, s: State) returns (l: Label)
    requires Sane(c) && Inv(c, s) && s.main.Shut? && !s.worker.Dead? && !InUserCode(s.worker)
    ensures OwnStep(l) && Enabled(c, s, l)
  {
    match s.worker
    case Poll => l := Loops(PollReady);
    case Recv =>
      NothingRead(s.jobs);
      l := Loops(TakeEof);
    case _ =>
      l := ExitStepEnabled(c, s);
  }

  lemma ShutMoves(c: Config, s: State, l: Label)
    requires Sane(c) && Inv(c, s) && s.main.Shut? && !l.Calls? && Enabled(c, s, l)
    ensures var t := Apply(c, s, l); Inv(c, t) && t.main.Shut? && Remaining(t) < Remaining(s)
  {
    UnusedShrinks(c, s, l);
    InnerLeavesUndisturbed(c, s, l);
    StepKeepsInv(c, s, l);
  }

  lemma ShutHasLittleLeft(c: Config, s: State)
    requires Sane(c) && Inv(c, s) && s.main.Shut?
    ensures Remaining(s) <= 16
  {
  }

  /** What a shut worker has ahead of it, whatever it, user code and the surroundings do. */
  lemma {:induction false} ShutIsBounded(c: Config, s: State, ls: seq<Label>)
    requires Sane(c) && Inv(c, s) && s.main.Shut? && Possible(c, s, ls) && forall l :: l in ls ==> !l.Calls?
    ensures After(c, s, ls).main.Shut? && Inv(c, After(c, s, ls))
    ensures |ls| <= Remaining(s) - Remaining(After(c, s, ls))
    decreases |ls|
  {
    if ls != [] {
      assert ls[0] in ls;
      ShutMoves(c, s, ls[0]);
      ShutIsBounded(c, Apply(c, s, ls[0]), ls[1..]);
    }
  }

  /** Shutdown is obeyed: after at most 16 steps a worker that has been told to shut down
      takes no more; then it is dead, unless it is in user code; and if it was neither killed
      nor died from outside, nor failed, it exited by itself with code 0. */
  lemma ShutdownIsObeyed(c: Config, s: State, ls: seq<Label>)
    requires Sane(c) && Reachable(c, s) && s.main.Shut? && Possible(c, s, ls) && forall l :: l in ls ==> !l.Calls?
    ensures |ls| <= 16
    ensures var t := After(c, s, ls);
            && (t.worker.Dead? || InUserCode(t.worker)
                || exists l :: OwnStep(l) && Enabled(c, t, l))
            && (t.worker.Dead? && t.worker.cause.Own? && !t.path.Bad? ==> t.worker.code == 0)
  {
    ReachableInv(c, s);
    ShutIsBounded(c, s, ls);
    ShutHasLittleLeft(c, s);
    var t := After(c, s, ls);
    if !t.worker.Dead? && !InUserCode(t.worker) {
      var l := ShutProgress(c, t);
    }
  }

  /** On its way out a worker does not come back to user code, or fail. */
  predicate Leaves(s: State, t: State) {
    && !InUserCode(t.worker)
    && (t.worker.Dead? ==> t.worker.cause.Own?)
    && (t.path.Bad? ==> s.path.Bad?)
  }

  lemma LoopIsLeft(c: Config, s: State, l: LoopStep)
    requires Sane(c) && Inv(c, s) && s.main.Shut? && LoopCan(c, s, l) && !InUserCode(s.worker)
    ensures Leaves(s, LoopDo(c, s, l))
  {
    if s.worker.Recv? {
      NothingRead(s.jobs);
    }
    match l
    case PollReady =>
    case Take(_) =>
    case TakeEof =>
  }

  lemma ExitIsTaken(c: Config, s: State, l: ExitStep)
    requires ExitCan(c, s, l) && l != Die
    ensures Leaves(s, ExitDo(c, s, l))
  {
    match l
    case CloseReadEnd =>
    case PutSentinel =>
    case CloseWriteEnd =>
    case GraceCloseWrite =>
    case GraceCloseRead =>
    case BadCloseWrite =>
    case DrainTake(_) =>
    case DrainEof(_) =>
    case Exit =>
  }

  /** And by its own steps alone it gets there from anywhere outside user code. */
  lemma ShutRun(c: Config, s: State) returns (ls: seq<Label>)
    requires Sane(c) && Inv(c, s) && s.main.Shut? && !s.worker.Dead? && !InUserCode(s.worker)
    ensures Possible(c, s, ls) && forall l :: l in ls ==> OwnStep(l)
    ensures var w := After(c, s, ls).worker; w.Dead? && w.cause.Own? && (!s.path.Bad? ==> w.code == 0)
    decreases Remaining(s)
  {
    var l := ShutProgress(c, s);
    var t := Apply(c, s, l);
    ShutMoves(c, s, l);
    if l.Loops? { LoopIsLeft(c, s, l.loop); } else { ExitIsTaken(c, s, l.exit); }
    var rest := [];
    if !t.worker.Dead? {
      rest := ShutRun(c, t);
    }
    ls := [l] + rest;
    Prepend(c, s, l, rest);
  }

  // ------------------------------------- exceptions that look like a shutdown

  /** init raises EOFError in a worker; the next submission finds its pipe closed. */
  lemma QuietShutdown(c: Config) returns (ls: seq<Label>)
    requires Sane(c)
    ensures ls == [Users(InitRaises(ShutdownLookalike)), Exits(GraceCloseWrite), Exits(GraceCloseRead),
                   Calls(Submit([])), Mains(WriteFails), Exits(Exit), Mains(Reaped)]
    ensures Possible(c, Fresh(), ls) && After(c, Fresh(), ls).main == Done(Retry)
  {
    var e := Users(InitRaises(ShutdownLookalike));
    ls := [e];
    assert Possible(c, Apply(c, Fresh(), e), []);
    Extend(c, Fresh(), ls, Exits(GraceCloseWrite)); ls := ls + [Exits(GraceCloseWrite)];
    Extend(c, Fresh(), ls, Exits(GraceCloseRead)); ls := ls + [Exits(GraceCloseRead)];
    Extend(c, Fresh(), ls, Calls(Submit([]))); ls := ls + [Calls(Submit([]))];
    Extend(c, Fresh(), ls, Mains(WriteFails)); ls := ls + [Mains(WriteFails)];
    Extend(c, Fresh(), ls, Exits(Exit)); ls := ls + [Exits(Exit)];
    Extend(c, Fresh(), ls, Mains(Reaped)); ls := ls + [Mains(Reaped)];
  }
}
