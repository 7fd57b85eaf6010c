/** What in a context comes to an end, and what can get stuck in it. */
module SystemTermination {
  import opened Protocol
  import opened ProtocolProofs
  import opened System
  import opened SystemProofs
  import opened SystemResults
  import ProtocolResults

  // ----------------------------------------------------------------- retries

  /** The step gives task t an answer of None. */
  predicate AnswersNone(s: Sys, x: Step, t: nat) {
    && (x == Answer(t) || x == GiveUp(t))
    && Answered(s, t) && s.slots[s.tasks[t].phase.w].st.main.answer.Retry?
  }

  predicate Begins(x: Step, t: nat) {
    x == Begin(t) || (x.BeginUnpicklable? && x.t == t)
  }

  predicate Own(x: Step, t: nat) {
    !x.Inner? && !ByCloser(x) && x.t == t
  }

  /** What a run has to do with one call, that of task t: the attempts it makes and how many
      of them are answered None, the workers it makes and how many of those answer None, and
      how many workers others put into the cache meanwhile. */
  datatype Tally = Tally(attempts: nat, nones: nat, made: nat, newNones: nat, appended: nat) {
    function Plus(o: Tally): Tally {
      Tally(attempts + o.attempts, nones + o.nones, made + o.made, newNones + o.newNones, appended + o.appended)
    }
  }

  function One(b: bool): nat {
    if b then 1 else 0
  }

  /** `mine` says whether the worker t has, or last had, is one that it made. */
  function Tallied(g: Setup, s: Sys, x: Step, t: nat, mine: bool): Tally
    requires Can(g, s, x)
  {
    Tally(
      One(Begins(x, t)),
      One(AnswersNone(s, x, t)),
      One(x == Make(t)),
      One(mine && AnswersNone(s, x, t)),
      One(x.Answer? && x.t != t && |Do(g, s, x).cache| > |s.cache|))
  }

  function NowMine(x: Step, t: nat, mine: bool): bool {
    x == Make(t) || (mine && x != Pop(t))
  }

  function Count(g: Setup, s: Sys, xs: seq<Step>, t: nat, mine: bool): Tally
    requires Possible(g, s, xs)
    decreases |xs|
  {
    if xs == [] then Tally(0, 0, 0, 0, 0)
    else Tallied(g, s, xs[0], t, mine).Plus(Count(g, Do(g, s, xs[0]), xs[1..], t, NowMine(xs[0], t, mine)))
  }

  /** t does not enter anew. */
  predicate OneCall(xs: seq<Step>, t: nat) {
    forall x :: x in xs ==> !(x.Enter? && x.t == t)
  }

  /** The attempts t can still begin on the workers there are, with a cache of n workers ... */
  function AttemptsLeft(tasks: map<nat, Task>, n: nat, t: nat): nat {
    if t !in tasks || tasks[t].phase.Departing? then 0
    else if tasks[t].phase.Starting? || tasks[t].phase.Holding? then n + 1
    else n
  }

  /** ... how many of them can be answered None by a worker that t did not make ... */
  function NonesLeft(tasks: map<nat, Task>, n: nat, t: nat, mine: bool): nat {
    if t !in tasks || tasks[t].phase.Departing? then 0
    else if Holds(tasks[t].phase) && !mine then n + 1
    else n
  }

  /** ... and whether the one worker that t made and that did not answer None is accounted
      for: t has it, or has left the loop. */
  function LastMade(tasks: map<nat, Task>, t: nat, mine: bool): nat {
    if t in tasks && (tasks[t].phase.Choosing? || (Holds(tasks[t].phase) && !mine)) then 0 else 1
  }

  /** The step from s to r moves no more into the tally than it takes from what is left. */
  predicate Pays(s: Sys, r: Sys, y: Tally, t: nat, before: bool, after: bool) {
    && y.attempts + AttemptsLeft(r.tasks, |r.cache|, t) <= AttemptsLeft(s.tasks, |s.cache|, t) + y.appended + y.made
    && y.nones + NonesLeft(r.tasks, |r.cache|, t, after)
       <= NonesLeft(s.tasks, |s.cache|, t, before) + y.appended + y.newNones
    && y.made + LastMade(s.tasks, t, before) <= y.newNones + LastMade(r.tasks, t, after)
  }

  /** What another's step, or a worker's, can do to the call: it may fill the cache by one. */
  predicate Spares(s: Sys, r: Sys, t: nat, appended: nat) {
    && (t in r.tasks <==> t in s.tasks)
    && (t in s.tasks ==> r.tasks[t].phase == s.tasks[t].phase)
    && |r.cache| <= |s.cache| + appended
  }

  lemma SparedPays(s: Sys, r: Sys, y: Tally, t: nat, mine: bool)
    requires Spares(s, r, t, y.appended) && y.attempts == y.nones == y.made == y.newNones == 0
    ensures Pays(s, r, y, t, mine, mine)
  {
  }

  lemma OtherTasksSpare(g: Setup, s: Sys, x: Step, t: nat)
    requires Can(g, s, x) && !Own(x, t) && !x.Inner? && !ByCloser(x)
    ensures Spares(s, Do(g, s, x), t, One(x.Answer? && |Do(g, s, x).cache| > |s.cache|))
  {
    match x
    case Enter(_, _) =>
    case Pop(_) =>
    case Make(_) =>
    case StartOk(_) =>
    case StartFails(_) =>
    case Begin(_) =>
    case BeginUnpicklable(_, _) =>
    case Answer(_) =>
    case GiveUp(_) => GivingUpIsNoAppend(g, s, x.t);
    case Leave(_) =>
  }

  lemma GivingUpIsNoAppend(g: Setup, s: Sys, t: nat)
    requires Can(g, s, GiveUp(t))
    ensures Do(g, s, GiveUp(t)).cache == s.cache
  {
  }

  lemma TheRestSpares(g: Setup, s: Sys, x: Step, t: nat)
    requires Can(g, s, x) && (x.Inner? || ByCloser(x))
    ensures Spares(s, Do(g, s, x), t, 0)
  {
    match x
    case Inner(_, _) =>
    case Close =>
    case Signal =>
    case JoinDead =>
    case JoinKill =>
    case Turnover =>
    case Collect =>
  }

  /** On the way to a worker ... */
  lemma ChoosingPays(g: Setup, s: Sys, x: Step, t: nat, mine: bool)
    requires Can(g, s, x) && Own(x, t) && (x.Pop? || x.Make? || x.StartOk? || x.StartFails?)
    ensures Pays(s, Do(g, s, x), Tallied(g, s, x, t, mine), t, mine, NowMine(x, t, mine))
  {
    match x
    case Pop(_) =>
    case Make(_) =>
    case StartOk(_) =>
    case StartFails(_) =>
  }

  /** ... with one ... */
  lemma BeginningPays(g: Setup, s: Sys, x: Step, t: nat, mine: bool)
    requires Can(g, s, x) && Own(x, t) && (x.Begin? || x.BeginUnpicklable?)
    ensures Pays(s, Do(g, s, x), Tallied(g, s, x, t, mine), t, mine, NowMine(x, t, mine))
  {
    match x
    case Begin(_) =>
    case BeginUnpicklable(_, _) =>
  }

  /** ... and after it. */
  lemma AnsweringPays(g: Setup, s: Sys, x: Step, t: nat, mine: bool)
    requires Can(g, s, x) && Own(x, t) && (x.Answer? || x.GiveUp? || x.Leave?)
    ensures Pays(s, Do(g, s, x), Tallied(g, s, x, t, mine), t, mine, NowMine(x, t, mine))
  {
    match x
    case Answer(_) =>
    case GiveUp(_) =>
    case Leave(_) =>
  }

  lemma OthersTally(g: Setup, s: Sys, x: Step, t: nat, mine: bool)
    requires Can(g, s, x) && !Own(x, t)
    ensures Tallied(g, s, x, t, mine) == Tally(0, 0, 0, 0, One(x.Answer? && |Do(g, s, x).cache| > |s.cache|))
  {
  }

  lemma OthersPay(g: Setup, s: Sys, x: Step, t: nat, mine: bool)
    requires Can(g, s, x) && !Own(x, t)
    ensures Pays(s, Do(g, s, x), Tallied(g, s, x, t, mine), t, mine, mine)
  {
    OthersTally(g, s, x, t, mine);
    var r, y := Do(g, s, x), Tallied(g, s, x, t, mine);
    assert Spares(s, r, t, y.appended) by {
      if x.Inner? || ByCloser(x) {
        TheRestSpares(g, s, x, t);
      } else {
        OtherTasksSpare(g, s, x, t);
      }
    }
    SparedPays(s, r, y, t, mine);
  }

  lemma StepPays(g: Setup, s: Sys, x: Step, t: nat, mine: bool)
    requires Can(g, s, x) && !(x.Enter? && x.t == t)
    ensures Pays(s, Do(g, s, x), Tallied(g, s, x, t, mine), t, mine, NowMine(x, t, mine))
  {
    if !Own(x, t) {
      OthersPay(g, s, x, t, mine);
    } else if x.Pop? || x.Make? || x.StartOk? || x.StartFails? {
      ChoosingPays(g, s, x, t, mine);
    } else if x.Begin? || x.BeginUnpicklable? {
      BeginningPays(g, s, x, t, mine);
    } else {
      AnsweringPays(g, s, x, t, mine);
    }
  }

  lemma {:induction false} RunPays(g: Setup, s: Sys, xs: seq<Step>, t: nat, mine: bool)
    requires Possible(g, s, xs) && OneCall(xs, t)
    ensures var y := Count(g, s, xs, t, mine);
            && y.attempts <= AttemptsLeft(s.tasks, |s.cache|, t) + y.appended + y.made
            && y.nones <= NonesLeft(s.tasks, |s.cache|, t, mine) + y.appended + y.newNones
            && y.made + LastMade(s.tasks, t, mine) <= y.newNones + 1
    decreases |xs|
  {
    if xs != [] {
      assert xs[0] in xs;
      StepPays(g, s, xs[0], t, mine);
      RunPays(g, Do(g, s, xs[0]), xs[1..], t, NowMine(xs[0], t, mine));
    }
  }

  /** How long a call retries, in any run whatever: it makes no more attempts than there were
      cached workers when it entered, others have put there since, and it has made itself; and
      of those it made all but the last answered None. */
  lemma RetriesCounted(g: Setup, s: Sys, xs: seq<Step>, t: nat)
    requires In(s, t) && s.tasks[t].phase.Choosing? && Possible(g, s, xs) && OneCall(xs, t)
    ensures var y := Count(g, s, xs, t, false);
            && y.attempts <= |s.cache| + y.appended + y.made
            && y.made <= y.newNones + 1
            && y.nones <= |s.cache| + y.appended + y.newNones
  {
    RunPays(g, s, xs, t, false);
  }

  /** Retry termination: with nobody else filling the cache, and new workers that outlast
      their first submission, a call makes at most one attempt more than there were cached
      workers when it entered, whatever the other tasks, the workers and the closer do. */
  lemma RetriesEnd(g: Setup, s: Sys, xs: seq<Step>, t: nat)
    requires In(s, t) && s.tasks[t].phase.Choosing? && Possible(g, s, xs) && OneCall(xs, t)
    requires Count(g, s, xs, t, false).appended == 0 && Count(g, s, xs, t, false).newNones == 0
    ensures Count(g, s, xs, t, false).attempts <= |s.cache| + 1
    ensures Count(g, s, xs, t, false).nones <= |s.cache|
  {
    RetriesCounted(g, s, xs, t);
  }

  /** A worker that is still in its loop, or that a failure has thrown out of it, outlasts
      its submission: unless it dies from outside it is never behind a None. */
  lemma Outlasts(g: Setup, s: Sys, t: nat)
    requires Sane(g.config) && Reachable(g, s) && Answered(s, t)
    requires var st := s.slots[s.tasks[t].phase.w].st;
             (st.path.Looping? || st.path.Bad?) && !DiedOutside(st.worker)
    ensures !s.slots[s.tasks[t].phase.w].st.main.answer.Retry?
  {
    ReachableInv(g, s);
    ProtocolResults.BrokenHasACause(g.config, s.slots[s.tasks[t].phase.w].st);
  }

  /** Discarded: dead, and nobody's. */
  predicate Discarded(s: Sys, w: nat) {
    w < |s.slots| && s.slots[w].owner.Gone? && s.slots[w].st.worker.Dead?
  }

  /** Each None discards the worker behind it ... */
  lemma NoneDiscards(g: Setup, s: Sys, x: Step, t: nat)
    requires Sane(g.config) && Reachable(g, s) && Can(g, s, x) && AnswersNone(s, x, t)
    ensures !Discarded(s, s.tasks[t].phase.w) && Discarded(Do(g, s, x), s.tasks[t].phase.w)
  {
    ReachableInv(g, s);
    ContractHolds(g, s, t);
  }

  lemma CallsLeaveTheDead(c: Config, st: State, l: Call)
    requires CallCan(c, st, l)
    ensures CallDo(c, st, l).worker == st.worker
  {
    match l
    case Submit(_) =>
    case SubmitUnpicklable(_) =>
    case Return =>
    case Shutdown =>
    case ShutKill =>
    case SubmitShut(_) =>
  }

  lemma DeadStayDead(c: Config, st: State, st': State)
    requires Moves(c, st, st') && st.worker.Dead?
    ensures st'.worker.Dead?
  {
    if st' != st {
      var l :| Enabled(c, st, l) && Apply(c, st, l) == st';
      if l.Calls? {
        CallsLeaveTheDead(c, st, l.call);
      } else {
        InnerLeavesUndisturbed(c, st, l);
      }
    }
  }

  /** A step that hands a worker over does so with one that is cached or held. */
  predicate HandsOver(s: Sys, x: Step, w: nat) {
    || (x.Pop? && s.cache != [] && s.cache[|s.cache| - 1] == w)
    || ((x.StartFails? || x.Answer? || x.GiveUp?) && In(s, x.t) && Holds(s.tasks[x.t].phase) && s.tasks[x.t].phase.w == w)
  }

  lemma NobodyHandsOverTheGone(g: Setup, s: Sys, x: Step, w: nat)
    requires Structure(s) && Can(g, s, x) && w < |s.slots| && s.slots[w].owner.Gone?
    ensures !HandsOver(s, x, w)
  {
  }

  lemma GoneStaysGone(g: Setup, s: Sys, x: Step, w: nat)
    requires Can(g, s, x) && !HandsOver(s, x, w) && w < |s.slots| && s.slots[w].owner.Gone?
    ensures w < |Do(g, s, x).slots| && Do(g, s, x).slots[w].owner.Gone?
  {
    if x.Inner? || ByCloser(x) {
      OwnersStay(g, s, x, w);
    } else {
      TasksLeaveTheGone(g, s, x, w);
    }
  }

  lemma OwnersStay(g: Setup, s: Sys, x: Step, w: nat)
    requires Can(g, s, x) && (x.Inner? || ByCloser(x)) && w < |s.slots|
    ensures |Do(g, s, x).slots| == |s.slots| && Do(g, s, x).slots[w].owner == s.slots[w].owner
  {
    match x
    case Inner(_, _) =>
    case Close =>
    case Signal =>
    case JoinDead =>
    case JoinKill =>
    case Turnover =>
    case Collect =>
  }

  lemma TasksLeaveTheGone(g: Setup, s: Sys, x: Step, w: nat)
    requires Can(g, s, x) && !x.Inner? && !ByCloser(x)
    requires !HandsOver(s, x, w) && w < |s.slots| && s.slots[w].owner.Gone?
    ensures w < |Do(g, s, x).slots| && Do(g, s, x).slots[w].owner.Gone?
  {
    match x
    case Enter(_, _) =>
    case Pop(_) =>
    case Make(_) =>
    case StartOk(_) =>
    case StartFails(_) =>
    case Begin(_) =>
    case BeginUnpicklable(_, _) =>
    case Answer(_) =>
    case GiveUp(_) =>
    case Leave(_) =>
  }

  /** ... for good, so that no two are answered by the same worker. */
  lemma {:induction false} DiscardedForGood(g: Setup, s: Sys, xs: seq<Step>, w: nat)
    requires Sane(g.config) && SysInv(g, s) && Possible(g, s, xs) && Discarded(s, w)
    ensures Discarded(Ran(g, s, xs), w)
    ensures w !in Ran(g, s, xs).cache && forall t :: !HeldBy(Ran(g, s, xs), t, w)
    decreases |xs|
  {
    if xs == [] {
      assert forall t: nat :: HeldBy(s, t, w) ==> TaskInv(s.tasks[t], t, s.slots);
    } else {
      SystemResults.StepKeepsInv(g, s, xs[0]);
      WorkersMove(g, s, xs[0]);
      NobodyHandsOverTheGone(g, s, xs[0], w);
      GoneStaysGone(g, s, xs[0], w);
      DeadStayDead(g.config, s.slots[w].st, Do(g, s, xs[0]).slots[w].st);
      DiscardedForGood(g, Do(g, s, xs[0]), xs[1..], w);
    }
  }

  // ---------------------------------------------------------------- progress

  /** The task waits for user code in the worker it uses. */
  predicate AwaitsUserCode(s: Sys, t: nat) {
    && In(s, t) && s.tasks[t].phase.Using? && s.tasks[t].phase.w < |s.slots|
    && var st := s.slots[s.tasks[t].phase.w].st; (st.main.Send? || st.main.Receive?) && InUserCode(st.worker)
  }

  /** The step is task t's own, or a step of run_sync or worker_behavior for the worker that
      t is using: not user code, not the surroundings. */
  predicate Serves(s: Sys, x: Step, t: nat) {
    || Own(x, t)
    || (x.Inner? && ProtocolResults.System(x.l) && In(s, t) && s.tasks[t].phase == Using(x.w))
  }

  lemma UserProgress(g: Setup, s: Sys, t: nat, w: nat) returns (x: Step)
    requires In(s, t) && s.tasks[t].phase == Using(w) && w < |s.slots| && s.slots[w].started
    requires InUse(s.slots[w].st, s.tasks[t].job) && !AwaitsUserCode(s, t)
    requires Sane(g.config) && ProtocolResults.Reachable(g.config, s.slots[w].st)
    ensures Can(g, s, x) && Serves(s, x, t) && !x.Enter?
  {
    if s.slots[w].st.main.Done? {
      x := Answer(t);
    } else {
      var l := ProtocolResults.Progress(g.config, s.slots[w].st);
      x := Inner(w, l);
    }
  }

  lemma OwnProgress(g: Setup, s: Sys, t: nat) returns (x: Step)
    requires In(s, t) && !s.tasks[t].phase.Using? && TaskInv(s.tasks[t], t, s.slots)
    requires s.cache != [] ==> s.cache[|s.cache| - 1] < |s.slots|
    ensures Can(g, s, x) && Serves(s, x, t) && !x.Enter?
  {
    match s.tasks[t].phase
    case Choosing => x := if s.cache == [] then Make(t) else Pop(t);
    case Starting(_) => x := StartOk(t);
    case Holding(_) => x := Begin(t);
    case Departing(_) => x := Leave(t);
  }

  /** No task in a context is ever stuck, whatever the others do, unless it waits for user
      code in its worker. */
  lemma TaskProgress(g: Setup, s: Sys, t: nat) returns (x: Step)
    requires Sane(g.config) && Reachable(g, s) && In(s, t) && !AwaitsUserCode(s, t)
    ensures Can(g, s, x) && Serves(s, x, t) && !x.Enter?
  {
    ReachableInv(g, s);
    assert TaskInv(s.tasks[t], t, s.slots);
    if s.tasks[t].phase.Using? {
      x := UserProgress(g, s, t, s.tasks[t].phase.w);
    } else {
      x := OwnProgress(g, s, t);
    }
  }

  /** A context that is being closed can always step, by main's or a worker's code: while its
      closer waits for the tasks, unless each of them waits for user code, and while it shuts
      down the cache, unless the grace period is infinite and the worker being joined is in
      user code. */
  lemma CloserProgress(g: Setup, s: Sys) returns (x: Step)
    requires Sane(g.config) && Reachable(g, s) && !s.closer.Open? && !s.closer.Closed?
    requires s.closer.Parked? ==> exists t :: In(s, t) && !AwaitsUserCode(s, t)
    requires !Stuck(g, s)
    ensures Can(g, s, x) && !x.Enter? && (x.Inner? ==> ProtocolResults.System(x.l))
  {
    if s.closer.Parked? {
      var t :| In(s, t) && !AwaitsUserCode(s, t);
      x := TaskProgress(g, s, t);
    } else {
      x := ShutdownProgress(g, s);
    }
  }

  // ----------------------------------------------------------------- closing

  function TotalRemaining(slots: seq<Slot>): nat {
    if slots == [] then 0 else ProtocolResults.Remaining(slots[0].st) + TotalRemaining(slots[1..])
  }

  lemma {:induction false} TotalFalls(slots: seq<Slot>, w: nat, slot: Slot)
    requires w < |slots|
    ensures TotalRemaining(slots[w := slot]) == TotalRemaining(slots) - ProtocolResults.Remaining(slots[w].st) + ProtocolResults.Remaining(slot.st)
  {
    if w == 0 {
      assert slots[w := slot][1..] == slots[1..];
    } else {
      assert slots[w := slot][1..] == slots[1..][w - 1 := slot];
      TotalFalls(slots[1..], w - 1, slot);
    }
  }

  /** Steps of its own the closer has ahead of it. */
  function CloserRank(c: Closer, n: nat): int {
    match c
    case Signalling(k) => 2 * n + 3 - k
    case Joining(k, _) => n + 2 - k
    case Collecting(_) => 1
    case _ => 0
  }

  function Measure(s: Sys): int {
    CloserRank(s.closer, |s.cache|) + TotalRemaining(s.slots)
  }

  /** While the cache is being shut down every step of the context, be it the closer's, a
      worker's, user code's or an accident, lowers the measure. */
  lemma ClosingDescends(g: Setup, s: Sys, x: Step)
    requires Sane(g.config) && Reachable(g, s) && Shutting(s.closer) && Can(g, s, x)
    ensures Shutting(Do(g, s, x).closer) && 0 <= Measure(Do(g, s, x)) < Measure(s)
  {
    ReachableInv(g, s);
    if x.Inner? {
      InnerDescends(g, s, x.w, x.l);
    } else {
      OnlyTheCloserMoves(g, s, x);
      if x.Signal? || x.JoinKill? {
        CallDescends(g, s, x, if x.Signal? then Call.Shutdown else ShutKill);
      } else {
        CloserDescends(g, s, x);
      }
    }
  }

  lemma OnlyTheCloserMoves(g: Setup, s: Sys, x: Step)
    requires CloserInv(s) && Shutting(s.closer) && Can(g, s, x)
    ensures x.Inner? || x.Signal? || x.JoinDead? || x.JoinKill? || x.Turnover? || x.Collect?
  {
  }

  lemma CloserDescends(g: Setup, s: Sys, x: Step)
    requires CloserInv(s) && Can(g, s, x) && (x.JoinDead? || x.Turnover? || x.Collect?)
    ensures Do(g, s, x).slots == s.slots && Shutting(Do(g, s, x).closer)
    ensures 0 <= CloserRank(Do(g, s, x).closer, |Do(g, s, x).cache|) < CloserRank(s.closer, |s.cache|)
  {
  }

  lemma CallSpares(c: Config, st: State, l: Call)
    requires CallCan(c, st, l) && (l.Shutdown? || l.ShutKill?)
    ensures ProtocolResults.Remaining(CallDo(c, st, l)) == ProtocolResults.Remaining(st)
  {
  }

  lemma CallDescends(g: Setup, s: Sys, x: Step, l: Call)
    requires Structure(s) && Can(g, s, x) && (if x.Signal? then l == Call.Shutdown else x.JoinKill? && l == ShutKill)
    ensures TotalRemaining(Do(g, s, x).slots) == TotalRemaining(s.slots)
    ensures Shutting(Do(g, s, x).closer)
    ensures 0 <= CloserRank(Do(g, s, x).closer, |Do(g, s, x).cache|) < CloserRank(s.closer, |s.cache|)
  {
    var w := s.cache[s.closer.k];
    var st := s.slots[w].st;
    CallSpares(g.config, st, l);
    TotalFalls(s.slots, w, s.slots[w].(st := CallDo(g.config, st, l)));
  }

  lemma InnerDescends(g: Setup, s: Sys, w: nat, l: Label)
    requires Sane(g.config) && SysInv(g, s) && Shutting(s.closer) && Can(g, s, Inner(w, l))
    ensures TotalRemaining(Do(g, s, Inner(w, l)).slots) < TotalRemaining(s.slots)
    ensures Do(g, s, Inner(w, l)).closer == s.closer && Do(g, s, Inner(w, l)).cache == s.cache
  {
    var st := s.slots[w].st;
    assert SlotInv(s.slots[w], w, s.cache, s.tasks);
    ProtocolResults.ReachableInv(g.config, st);
    ProtocolResults.UnusedShrinks(g.config, st, l);
    TotalFalls(s.slots, w, s.slots[w].(st := Apply(g.config, st, l)));
  }

  lemma StaysReachable(g: Setup, s: Sys, x: Step)
    requires Reachable(g, s) && Can(g, s, x)
    ensures Reachable(g, Do(g, s, x))
  {
    StaysWithin(g, Empty(), s, x);
  }

  lemma StaysWithin(g: Setup, e: Sys, s: Sys, x: Step)
    requires (exists xs :: Possible(g, e, xs) && Ran(g, e, xs) == s) && Can(g, s, x)
    ensures exists xs :: Possible(g, e, xs) && Ran(g, e, xs) == Do(g, s, x)
  {
    var xs :| Possible(g, e, xs) && Ran(g, e, xs) == s;
    Extend(g, e, xs, x);
  }

  lemma {:induction false} Extend(g: Setup, s: Sys, xs: seq<Step>, x: Step)
    requires Possible(g, s, xs) && Can(g, Ran(g, s, xs), x)
    ensures Possible(g, s, xs + [x]) && Ran(g, s, xs + [x]) == Do(g, Ran(g, s, xs), x)
    decreases |xs|
  {
    if xs == [] {
      assert xs + [x] == [x];
    } else {
      Extend(g, Do(g, s, xs[0]), xs[1..], x);
      assert (xs + [x])[1..] == xs[1..] + [x];
    }
  }

  /** So shutdown cannot go on for ever: no run of the whole context from here is longer. */
  lemma {:induction false} ClosingIsBounded(g: Setup, s: Sys, xs: seq<Step>)
    requires Sane(g.config) && Reachable(g, s) && Shutting(s.closer) && Possible(g, s, xs)
    ensures |xs| <= Measure(s)
    decreases |xs|
  {
    if xs == [] {
      ReachableInv(g, s);
    } else {
      ClosingDescends(g, s, xs[0]);
      StaysReachable(g, s, xs[0]);
      ClosingIsBounded(g, Do(g, s, xs[0]), xs[1..]);
    }
  }

  /** And closing ends, unless it is stuck: a run of the shutdown has a bounded length, and it
      can go on until the closer is done or waits without limit for user code. */
  lemma ClosingEnds(g: Setup, s: Sys, xs: seq<Step>)
    requires Sane(g.config) && Reachable(g, s) && Shutting(s.closer) && Possible(g, s, xs)
    ensures |xs| <= Measure(s)
    ensures var r := Ran(g, s, xs);
            r.closer.Closed? || Stuck(g, r) || exists x :: Can(g, r, x) && Advances(r, x)
  {
    ClosingIsBounded(g, s, xs);
    RunStaysShutting(g, s, xs);
    var r := Ran(g, s, xs);
    if !r.closer.Closed? {
      StuckExactly(g, r);
    }
  }

  lemma {:induction false} RunStaysShutting(g: Setup, s: Sys, xs: seq<Step>)
    requires Sane(g.config) && Reachable(g, s) && Shutting(s.closer) && Possible(g, s, xs)
    ensures Reachable(g, Ran(g, s, xs)) && Shutting(Ran(g, s, xs).closer)
    decreases |xs|
  {
    if xs != [] {
      ClosingDescends(g, s, xs[0]);
      StaysReachable(g, s, xs[0]);
      RunStaysShutting(g, Do(g, s, xs[0]), xs[1..]);
    }
  }
}
