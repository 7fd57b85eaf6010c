/** What every run of a whole context does. */
module SystemResults {
  import opened Options
  import opened Framing
  import opened Protocol
  import opened Lifetime
  import opened System
  import opened SystemProofs
  import ProtocolResults

  // -------------------------------------------------------------------- runs

  predicate Possible(g: Setup, s: Sys, xs: seq<Step>)
    decreases |xs|
  {
    xs == [] || (Can(g, s, xs[0]) && Possible(g, Do(g, s, xs[0]), xs[1..]))
  }

  function Ran(g: Setup, s: Sys, xs: seq<Step>): Sys
    requires Possible(g, s, xs)
    decreases |xs|
  {
    if xs == [] then s else Ran(g, Do(g, s, xs[0]), xs[1..])
  }

  ghost predicate Reachable(g: Setup, s: Sys) {
    exists xs :: Possible(g, Empty(), xs) && Ran(g, Empty(), xs) == s
  }

  ghost predicate WorkersReachable(g: Setup, s: Sys) {
    forall i :: 0 <= i < |s.slots| ==> ProtocolResults.Reachable(g.config, s.slots[i].st)
  }

  ghost predicate SysInv(g: Setup, s: Sys) {
    Structure(s) && CountInv(g, s) && WorkersReachable(g, s)
  }

  lemma WorkersStayReachable(g: Setup, s: Sys, x: Step)
    requires WorkersReachable(g, s) && Can(g, s, x)
    ensures WorkersReachable(g, Do(g, s, x))
  {
    WorkersMove(g, s, x);
    ProtocolResults.FreshReachable(g.config);
    var slots := Do(g, s, x).slots;
    forall i | 0 <= i < |slots|
      ensures ProtocolResults.Reachable(g.config, slots[i].st)
    {
      if i < |s.slots| && slots[i].st != s.slots[i].st {
        assert Moves(g.config, s.slots[i].st, slots[i].st);
        var l :| Enabled(g.config, s.slots[i].st, l) && Apply(g.config, s.slots[i].st, l) == slots[i].st;
        ProtocolResults.StepReachable(g.config, s.slots[i].st, l);
      }
    }
  }

  lemma ContractHolds(g: Setup, s: Sys, t: nat)
    requires Sane(g.config) && WorkersReachable(g, s) && Answered(s, t)
    ensures var st := s.slots[s.tasks[t].phase.w].st;
            && Contract(st.main.answer, st.entries, st.made, st.worker.Dead?)
            && (st.main.answer.Delivered? || st.main.answer.Unpicklable? ==> !st.killed)
  {
    ProtocolResults.AnswersKeepContract(g.config, s.slots[s.tasks[t].phase.w].st);
  }

  predicate ByCloser(x: Step) {
    x.Close? || x.Signal? || x.JoinDead? || x.JoinKill? || x.Turnover? || x.Collect?
  }

  lemma BeginStepKeeps(g: Setup, s: Sys, t: nat, l: Call)
    requires Structure(s) && In(s, t) && s.tasks[t].phase.Holding? && s.tasks[t].phase.w < |s.slots|
    requires l == Submit(s.tasks[t].job) || l.SubmitUnpicklable?
    requires CallCan(g.config, s.slots[s.tasks[t].phase.w].st, l)
    ensures var w := s.tasks[t].phase.w;
            Structure(SetState(SetPhase(s, t, Using(w)), w, CallDo(g.config, s.slots[w].st, l)))
  {
    var w := s.tasks[t].phase.w;
    BeginKeeps(s, t, w, CallDo(g.config, s.slots[w].st, l));
  }

  lemma InnerStepKeeps(g: Setup, s: Sys, w: nat, l: Label)
    requires Structure(s) && w < |s.slots| && s.slots[w].started && !l.Calls? && Enabled(g.config, s.slots[w].st, l)
    ensures Structure(SetState(s, w, Apply(g.config, s.slots[w].st, l)))
  {
    ProtocolProofs.InnerLeavesUndisturbed(g.config, s.slots[w].st, l);
    MoveKeeps(s, w, Apply(g.config, s.slots[w].st, l));
  }

  lemma ShutStepKeeps(g: Setup, s: Sys, w: nat, closer: Closer, l: Call)
    requires Structure(s) && w < |s.slots| && CallCan(g.config, s.slots[w].st, l)
    requires s.closer.Signalling? || s.closer.Joining?
    requires s.closer.k < |s.cache| && s.cache[s.closer.k] == w
    requires closer == if s.closer.Signalling? then Signalling(s.closer.k + 1) else Joining(s.closer.k + 1, true)
    requires l == if s.closer.Signalling? then Call.Shutdown else ShutKill
    ensures Structure(SetState(s, w, CallDo(g.config, s.slots[w].st, l)).(closer := closer))
  {
    if s.closer.Signalling? {
      SignalKeeps(s, w, CallDo(g.config, s.slots[w].st, l));
    } else {
      DoomKeeps(s, w, CallDo(g.config, s.slots[w].st, l));
    }
  }

  lemma TaskStepKeeps(g: Setup, s: Sys, x: Step)
    requires Sane(g.config) && SysInv(g, s) && Can(g, s, x) && !ByCloser(x)
    ensures Structure(Do(g, s, x))
  {
    match x
    case Enter(t, job) => AdmitKeeps(s, t, job);
    case Pop(t) => PopKeeps(s, t);
    case Make(t) => MakeKeeps(s, t);
    case StartOk(t) => StartOkKeeps(s, t, s.tasks[t].phase.w);
    case StartFails(t) => StartFailsKeeps(s, t, s.tasks[t].phase.w);
    case Begin(t) => BeginStepKeeps(g, s, t, Submit(s.tasks[t].job));
    case BeginUnpicklable(t, exc) => BeginStepKeeps(g, s, t, SubmitUnpicklable(exc));
    case Inner(w, l) => InnerStepKeeps(g, s, w, l);
    case Answer(t) => ContractHolds(g, s, t); AnswerKeeps(g, s, t);
    case GiveUp(t) => ContractHolds(g, s, t); DroppedKeeps(g, s, t, Retry, Departing(Failed(GaveUp)));
    case Leave(t) => LeaveKeeps(s, t);
  }

  lemma ClosingCallKeeps(g: Setup, s: Sys, x: Step)
    requires Structure(s) && Can(g, s, x) && (x.Signal? || x.JoinKill?)
    ensures Structure(Do(g, s, x))
  {
    var k := s.closer.k;
    if x.Signal? {
      ShutStepKeeps(g, s, s.cache[k], Signalling(k + 1), Call.Shutdown);
    } else {
      ShutStepKeeps(g, s, s.cache[k], Joining(k + 1, true), ShutKill);
    }
  }

  lemma CloserStepKeeps(g: Setup, s: Sys, x: Step)
    requires SysInv(g, s) && Can(g, s, x) && ByCloser(x)
    ensures Structure(Do(g, s, x))
  {
    if x.Signal? || x.JoinKill? {
      ClosingCallKeeps(g, s, x);
    } else {
      match x
      case Close => CloseKeeps(s);
      case JoinDead => JoinDeadKeeps(s, s.slots[s.cache[s.closer.k]].st.worker.code != 0);
      case Turnover => TurnoverKeeps(s);
      case Collect => CollectKeeps(s);
    }
  }

  lemma CountKept(g: Setup, s: Sys, x: Step)
    requires CountInv(g, s) && Can(g, s, x)
    ensures CountInv(g, Do(g, s, x))
  {
    match x
    case Enter(t, job) => EnterCounts(g, s, t, job);
    case Pop(t) => PopCounts(g, s, t);
    case Make(t) => MakeCounts(g, s, t);
    case StartOk(t) => PhaseCounts(g, s, t, Holding(s.tasks[t].phase.w), Do(g, s, x).slots);
    case StartFails(t) => PhaseCounts(g, s, t, Departing(Failed(NotStarted)), Do(g, s, x).slots);
    case Begin(t) => PhaseCounts(g, s, t, Using(s.tasks[t].phase.w), Do(g, s, x).slots);
    case BeginUnpicklable(t, _) => PhaseCounts(g, s, t, Using(s.tasks[t].phase.w), Do(g, s, x).slots);
    case Answer(t) => SettleCounts(g, s, t, After(s.slots[s.tasks[t].phase.w].st.main.answer));
    case GiveUp(t) => SettleCounts(g, s, t, Departing(Failed(GaveUp)));
    case Leave(t) => LeaveCounts(g, s, t);
    case _ =>
  }

  lemma StepKeepsInv(g: Setup, s: Sys, x: Step)
    requires Sane(g.config) && SysInv(g, s) && Can(g, s, x)
    ensures SysInv(g, Do(g, s, x))
  {
    if ByCloser(x) {
      CloserStepKeeps(g, s, x);
    } else {
      TaskStepKeeps(g, s, x);
    }
    CountKept(g, s, x);
    WorkersStayReachable(g, s, x);
  }

  lemma {:induction false} RunKeepsInv(g: Setup, s: Sys, xs: seq<Step>)
    requires Sane(g.config) && SysInv(g, s) && Possible(g, s, xs)
    ensures SysInv(g, Ran(g, s, xs))
    decreases |xs|
  {
    if xs != [] {
      StepKeepsInv(g, s, xs[0]);
      RunKeepsInv(g, Do(g, s, xs[0]), xs[1..]);
    }
  }

  lemma NobodyCounted(g: Setup, s: Sys)
    requires |s.tasks| == 0 && |s.cache| == 0 && s.life == Lifetime(0, 0, false) && s.peak == 0
    ensures CountInv(g, s)
  {
    HoldersAmong(s.tasks);
  }

  lemma NobodyWorks(g: Setup, s: Sys)
    requires |s.slots| == 0
    ensures WorkersReachable(g, s)
  {
  }

  lemma NothingCached(slots: seq<Slot>, cache: seq<nat>, closer: Closer)
    requires |cache| == 0
    ensures CacheInv(slots, cache, closer)
  {
  }

  lemma NothingHeld(s: Sys)
    requires |s.slots| == 0 && |s.cache| == 0 && |s.tasks| == 0
    requires s.closer.Open? && !s.parked && s.wakeups == 0 && !s.life.waiting
    ensures Structure(s)
  {
    assert |s.tasks| == |s.tasks.Keys|;
    NothingCached(s.slots, s.cache, s.closer);
  }

  lemma NothingYet(g: Setup, s: Sys)
    requires |s.slots| == 0 && |s.cache| == 0 && |s.tasks| == 0
    requires s.closer.Open? && !s.parked && s.wakeups == 0 && s.life == Lifetime(0, 0, false) && s.peak == 0
    ensures SysInv(g, s)
  {
    NobodyCounted(g, s);
    NobodyWorks(g, s);
    NothingHeld(s);
  }

  lemma ReachableInv(g: Setup, s: Sys)
    requires Sane(g.config) && Reachable(g, s)
    ensures SysInv(g, s)
  {
    var xs :| Possible(g, Empty(), xs) && Ran(g, Empty(), xs) == s;
    NothingYet(g, Empty());
    RunKeepsInv(g, Empty(), xs);
  }

  // ----------------------------------------------------------------- results

  predicate CleanlyDead(s: Sys, w: nat) {
    IsDead(s, w) && s.slots[w].st.worker.code == 0
  }

  ghost predicate HeldBy(s: Sys, t: nat, w: nat) {
    In(s, t) && Holds(s.tasks[t].phase) && s.tasks[t].phase.w == w
  }

  /** Every worker ever made is in the cache once, or held by exactly one task, or else
      dead or never started. */
  lemma Ownership(g: Setup, s: Sys, w: nat)
    requires Sane(g.config) && Reachable(g, s) && w < |s.slots|
    ensures forall j, k :: 0 <= j < k < |s.cache| ==> s.cache[j] != s.cache[k]
    ensures forall t, u :: HeldBy(s, t, w) && HeldBy(s, u, w) ==> t == u
    ensures !(w in s.cache && exists t :: HeldBy(s, t, w))
    ensures w in s.cache || (exists t :: HeldBy(s, t, w)) || !s.slots[w].started || s.slots[w].st.worker.Dead?
  {
    ReachableInv(g, s);
    assert SlotInv(s.slots[w], w, s.cache, s.tasks);
    if s.slots[w].owner.Held? {
      assert HeldBy(s, s.slots[w].owner.t, w);
    }
  }

  /** No process outlives its context: when `_aclose` completes, normally or by raising,
      every process the context ever started has exited; and it completes normally only if
      all those still cached exited with code 0. */
  lemma NothingOutlives(g: Setup, s: Sys)
    requires Sane(g.config) && Reachable(g, s) && s.closer.Closed?
    ensures s.tasks == map[]
    ensures forall w :: 0 <= w < |s.slots| && s.slots[w].started ==> s.slots[w].st.worker.Dead?
    ensures !s.closer.raised ==>
              forall j :: 0 <= j < |s.cache| ==> CleanlyDead(s, s.cache[j])
  {
    ReachableInv(g, s);
    forall w | 0 <= w < |s.slots| && s.slots[w].started
      ensures s.slots[w].st.worker.Dead?
    {
      assert SlotInv(s.slots[w], w, s.cache, s.tasks);
      if w in s.cache {
        var j :| 0 <= j < |s.cache| && s.cache[j] == w;
      }
    }
  }

  /** Exactly-once delivery, over any number of retries on any number of workers. */
  lemma ExactlyOnce(g: Setup, s: Sys, t: nat)
    requires Sane(g.config) && Reachable(g, s) && In(s, t) && s.tasks[t].phase.Departing?
    ensures match s.tasks[t].phase.result
            case Got(o) => s.tasks[t].ran == 1 && s.tasks[t].made == Some(o)
            case NotPickled(_) => s.tasks[t].ran == 0
            case Failed(_) => s.tasks[t].ran <= 1
  {
    ReachableInv(g, s);
  }

  /** Until a task is answered nothing it submitted has run, but on the worker it is using,
      and that worker runs only that task's job. */
  lemma RunsOnlyItsOwn(g: Setup, s: Sys, t: nat)
    requires Sane(g.config) && Reachable(g, s) && In(s, t) && !s.tasks[t].phase.Departing?
    ensures s.tasks[t].ran == 0
    ensures s.tasks[t].phase.Using? ==>
              var w := s.tasks[t].phase.w;
              w < |s.slots| && (s.slots[w].st.worker.Run? ==> s.slots[w].st.worker.job == s.tasks[t].job)
  {
    ReachableInv(g, s);
    if s.tasks[t].phase.Using? && s.slots[s.tasks[t].phase.w].st.worker.Run? {
      ProtocolResults.OwnJobOnly(g.config, s.slots[s.tasks[t].phase.w].st);
    }
  }

  /** A cached worker is idle with nothing left over from earlier tasks. */
  lemma CacheIsClean(g: Setup, s: Sys, j: nat)
    requires Sane(g.config) && Reachable(g, s) && j < |s.cache| && !Shutting(s.closer)
    ensures s.cache[j] < |s.slots|
    ensures var st := s.slots[s.cache[j]].st;
            st.main.Idle? && InFlight(st.jobs) == 0
            && st.results.stream[st.results.read..st.results.written] in {[], SentinelFrame(g.config)}
  {
    ReachableInv(g, s);
    ProtocolResults.NothingStale(g.config, s.slots[s.cache[j]].st);
  }

  /** Cached and held workers together never exceed the most tasks there ever were inside,
      nor, then, the capacity of a single limiter. */
  lemma Capacity(g: Setup, s: Sys)
    requires Sane(g.config) && Reachable(g, s)
    ensures |s.cache| + |Holders(s.tasks)| <= s.peak
    ensures g.limit.Some? ==> s.peak <= g.limit.value
  {
    ReachableInv(g, s);
  }

  /** The counters tell who is inside; the cache is shut down with nobody inside; and the
      closer has been rescheduled once if it had to park and everybody has left, and
      otherwise never. */
  lemma CloserCounts(g: Setup, s: Sys)
    requires Sane(g.config) && Reachable(g, s)
    ensures s.life.Running() == |s.tasks|
    ensures s.closer.Parked? ==> s.tasks != map[]
    ensures Shutting(s.closer) ==> s.tasks == map[]
    ensures s.wakeups == if s.parked && Shutting(s.closer) then 1 else 0
  {
    ReachableInv(g, s);
  }

  /** A task on its way out reschedules the closer exactly when the closer is parked and
      nobody else is inside. */
  lemma WakesWhenLast(g: Setup, s: Sys, t: nat)
    requires Sane(g.config) && Reachable(g, s) && In(s, t)
    ensures s.life.Wakes() <==> s.closer.Parked? && s.tasks.Keys == {t}
  {
    ReachableInv(g, s);
    assert |s.tasks.Keys - {t}| == |s.tasks| - 1;
  }

  /** Nobody enters once closing has begun. */
  lemma NoEntryAfterClose(g: Setup, s: Sys, t: nat, job: Payload)
    requires Sane(g.config) && Reachable(g, s) && !s.closer.Open?
    ensures !Can(g, s, Enter(t, job))
  {
    ReachableInv(g, s);
  }

  /** A step that brings the shutdown on: the closer's, or one of main or worker for the
      worker it is joining, or for one it has killed. */
  predicate Advances(s: Sys, x: Step) {
    || ByCloser(x)
    || (x.Inner? && ProtocolResults.System(x.l) && x.w < |s.slots|
        && (|| (s.closer.Joining? && s.closer.k < |s.cache| && s.cache[s.closer.k] == x.w)
            || (s.closer.Collecting? && x.w in s.cache && s.slots[x.w].st.killed)))
  }

  /** The closer is joining a worker that is in user code. */
  predicate JoinsUserCode(s: Sys) {
    && s.closer.Joining? && s.closer.k < |s.cache| && s.cache[s.closer.k] < |s.slots|
    && InUserCode(s.slots[s.cache[s.closer.k]].st.worker)
  }

  /** It will wait for ever if user code does not return. */
  predicate Stuck(g: Setup, s: Sys) {
    g.endless && JoinsUserCode(s)
  }

  lemma JoiningProgress(g: Setup, s: Sys) returns (x: Step)
    requires Sane(g.config) && SysInv(g, s) && s.closer.Joining? && s.closer.k < |s.cache|
    requires !IsDead(s, s.cache[s.closer.k]) && !JoinsUserCode(s)
    ensures Can(g, s, x) && Advances(s, x) && !x.JoinKill?
  {
    var w := s.cache[s.closer.k];
    assert CachedInv(s.slots[w], s.closer.k, |s.cache|, s.closer);
    assert SlotInv(s.slots[w], w, s.cache, s.tasks);
    ProtocolResults.ReachableInv(g.config, s.slots[w].st);
    var l := ProtocolResults.ShutProgress(g.config, s.slots[w].st);
    x := Inner(w, l);
  }

  lemma CollectingProgress(g: Setup, s: Sys) returns (x: Step)
    requires SysInv(g, s) && s.closer.Collecting?
    ensures Can(g, s, x) && Advances(s, x) && !x.JoinKill?
  {
    if j :| 0 <= j < |s.cache| && !IsDead(s, s.cache[j]) {
      assert CachedInv(s.slots[s.cache[j]], j, |s.cache|, s.closer);
      assert SlotInv(s.slots[s.cache[j]], s.cache[j], s.cache, s.tasks);
      x := Inner(s.cache[j], Exits(Die));
    } else {
      x := Collect;
    }
  }

  /** Cache shutdown goes on by itself, with every worker leaving of its own accord, unless
      the one being joined is in user code; then the deadline, if there is one, ends it. */
  lemma ShutdownProgress(g: Setup, s: Sys) returns (x: Step)
    requires Sane(g.config) && Reachable(g, s) && Shutting(s.closer) && !s.closer.Closed? && !Stuck(g, s)
    ensures Can(g, s, x) && Advances(s, x)
    ensures x.JoinKill? ==> JoinsUserCode(s)
  {
    ReachableInv(g, s);
    match s.closer
    case Signalling(k) => x := if k < |s.cache| then Signal else Turnover;
    case Joining(k, _) =>
      if k == |s.cache| {
        x := Turnover;
      } else if IsDead(s, s.cache[k]) {
        x := JoinDead;
      } else if JoinsUserCode(s) {
        x := JoinKill;
      } else {
        x := JoiningProgress(g, s);
      }
    case Collecting(_) => x := CollectingProgress(g, s);
  }

  lemma NothingAdvances(g: Setup, s: Sys, x: Step)
    requires SysInv(g, s) && Stuck(g, s) && Can(g, s, x)
    ensures !Advances(s, x)
  {
    var w := s.cache[s.closer.k];
    assert CachedInv(s.slots[w], s.closer.k, |s.cache|, s.closer);
    if x.Inner? && x.w == w {
      NoStepOfItsOwn(g.config, s.slots[w].st, x.l);
    }
  }

  lemma NoStepOfItsOwn(c: Config, st: State, l: Label)
    requires Enabled(c, st, l) && st.main.Shut? && !st.killed && InUserCode(st.worker)
    ensures !ProtocolResults.System(l)
  {
    match l
    case Calls(_) =>
    case Mains(_) =>
    case Loops(_) =>
    case Exits(_) =>
    case Users(_) =>
    case Worlds(_) =>
  }

  /** Exactly when cache shutdown is stuck: the grace period is infinite and the worker being
      joined is in user code. */
  lemma StuckExactly(g: Setup, s: Sys)
    requires Sane(g.config) && Reachable(g, s) && Shutting(s.closer) && !s.closer.Closed?
    ensures (exists x :: Can(g, s, x) && Advances(s, x)) <==> !Stuck(g, s)
  {
    ReachableInv(g, s);
    if Stuck(g, s) {
      forall x | Can(g, s, x)
        ensures !Advances(s, x)
      {
        NothingAdvances(g, s, x);
      }
    } else {
      var x := ShutdownProgress(g, s);
    }
  }
}
