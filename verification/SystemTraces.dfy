/**
 What the steps of a run of a context say about each call. The laws speak of what tasks
 entered with, what their workers' user code returned and which steps were taken; nothing is
 read off the history fields.
 */
module SystemTraces {
  import opened Options
  import opened Framing
  import opened Protocol
  import opened ProtocolProofs
  import opened ProtocolTraces
  import opened System
  import opened SystemProofs
  import opened SystemResults
  import opened SystemTermination
  import ProtocolResults

  // ------------------------------------------------------------- one step's effect

  /** An attempt that is over: the answer decides how, or whether, the call leaves. A None
      leaves the task inside, choosing again. */
  lemma AnswerLeaves(g: Setup, s: Sys, t: nat)
    requires Can(g, s, Answer(t))
    ensures var r := Do(g, s, Answer(t));
            In(r, t) && match s.slots[s.tasks[t].phase.w].st.main.answer
                        case Delivered(o) => r.tasks[t].phase == Departing(Got(o))
                        case Unpicklable(exc) => r.tasks[t].phase == Departing(Result.NotPickled(exc))
                        case Raised(e) => r.tasks[t].phase == Departing(Failed(FromWorker(e)))
                        case Retry => r.tasks[t].phase == Choosing
  {
  }

  /** The worker goes back to the right end of the cache exactly after an outcome. */
  lemma AnswerCaches(g: Setup, s: Sys, t: nat)
    requires Can(g, s, Answer(t))
    ensures var w, r := s.tasks[t].phase.w, Do(g, s, Answer(t));
            var a := s.slots[w].st.main.answer;
            r.cache == if a.Delivered? || a.Unpicklable? then s.cache + [w] else s.cache
  {
  }

  /** The worker tried is the one cached last; one is made only when none is cached, and it
      is a new one. */
  lemma TriesTheLatest(g: Setup, s: Sys, x: Step, t: nat)
    requires Can(g, s, x) && (x == Pop(t) || x == Make(t))
    ensures var r := Do(g, s, x);
            In(r, t) && if s.cache != []
                        then x.Pop? && r.tasks[t].phase.Holding? && s.cache == r.cache + [r.tasks[t].phase.w]
                        else x.Make? && r.tasks[t].phase == Starting(|s.slots|) && r.cache == [] && |r.slots| == |s.slots| + 1
                             && r.slots[|s.slots|].st == Fresh()
  {
  }

  /** Entering prunes the cache: the dead at its left end are gone, the leftmost that is left
      is alive, and nothing else has changed. */
  lemma EnteringPrunes(g: Setup, s: Sys, t: nat, job: Payload)
    requires Can(g, s, Enter(t, job))
    ensures var r := Do(g, s, Enter(t, job));
            && r.slots == s.slots && In(r, t) && r.tasks[t].phase == Choosing && r.tasks[t].job == job
            && (r.cache != [] ==> !IsDead(r, r.cache[0]))
            && exists n :: 0 <= n <= |s.cache| && r.cache == s.cache[n..] && forall i :: 0 <= i < n ==> IsDead(s, s.cache[i])
  {
  }

  // ------------------------------------------------------------------ whole calls

  /** What happens for task t, from its latest entry on: the job it entered with, how often
      handle_job is entered on a worker while t uses it, what these entries end in, whether
      its attempt has been cancelled, its latest own step, and the latest that began an
      attempt. */
  datatype Diary = Diary(job: Option<Payload>, starts: nat, ends: seq<Outcome>, cancelled: bool,
                         own: Option<Step>, begun: Option<Step>)

  function Blank(): Diary {
    Diary(None, 0, [], false, None, None)
  }

  /** A step of the worker that t is using. */
  predicate ForTask(s: Sys, x: Step, t: nat) {
    x.Inner? && In(s, t) && s.tasks[t].phase == Using(x.w)
  }

  /** One step, taken in s. */
  function Noted(s: Sys, x: Step, t: nat, d: Diary): Diary {
    if x.Enter? && x.t == t then
      Diary(Some(x.job), 0, [], false, Some(x), None)
    else if SystemTermination.Own(x, t) then
      d.(own := Some(x), begun := if Begins(x, t) then Some(x) else d.begun, cancelled := !Begins(x, t) && d.cancelled)
    else if ForTask(s, x, t) then
      d.(starts := d.starts + if x.l == Loops(Start) then 1 else 0,
         ends := d.ends + if EndsJob(x.l) then [x.l.user.o] else [],
         cancelled := d.cancelled || x.l == Worlds(Cancel))
    else d
  }

  /** The diary of t over a run from s. */
  function Kept(g: Setup, s: Sys, xs: seq<Step>, t: nat, d: Diary): Diary
    requires Possible(g, s, xs)
    decreases |xs|
  {
    if xs == [] then d else Kept(g, Do(g, s, xs[0]), xs[1..], t, Noted(s, xs[0], t, d))
  }

  /** What a result says about its call. */
  predicate Explains(r: System.Result, t: nat, d: Diary) {
    match r
    case Got(o) => d.starts == 1 && d.ends == [o] && d.own == Some(Answer(t)) && d.begun == Some(Begin(t))
    case NotPickled(exc) => d.starts == 0 && d.own == Some(Answer(t)) && d.begun == Some(BeginUnpicklable(t, exc))
    case Failed(FromWorker(e)) =>
      d.starts <= 1 && d.own == Some(Answer(t)) && d.begun == Some(Begin(t)) && (e.Cancelled? ==> d.cancelled)
    case Failed(GaveUp) => d.starts == 0 && d.own == Some(GiveUp(t))
    case Failed(NotStarted) => d.starts == 0 && d.own == Some(StartFails(t))
  }

  /** And what a worker's state says about the attempt that uses it. */
  predicate Fits(st: State, t: nat, d: Diary) {
    && d.starts == st.entries
    && d.ends == (if st.made.Some? then [st.made.value] else [])
    && (ProtocolTraces.NotPickled(st.main) ==> d.begun == Some(BeginUnpicklable(t, st.main.answer.exc)))
    && (Serving(st.main) ==> d.begun == Some(Begin(t)))
    && (ProtocolTraces.NotPickled(st.main) || Serving(st.main))
    && (Failing(st.main, Cancelled) ==> d.cancelled)
  }

  ghost predicate TaskTold(task: Task, slots: seq<Slot>, t: nat, d: Diary) {
    && d.job == Some(task.job)
    && match task.phase
       case Using(w) => w < |slots| && Fits(slots[w].st, t, d)
       case Departing(r) => Explains(r, t, d)
       case _ => d.starts == 0 && d.ends == []
  }

  ghost predicate Told(s: Sys, t: nat, d: Diary) {
    In(s, t) ==> TaskTold(s.tasks[t], s.slots, t, d)
  }

  // -------------------------------------------------------------- and each step

  lemma InnerFits(c: Config, st: State, l: Label, t: nat, d: Diary)
    requires Sane(c) && Inv(c, st) && Enabled(c, st, l) && !l.Calls? && Fits(st, t, d)
    ensures Fits(Apply(c, st, l), t, Served(l, d))
  {
    StepMarks(c, st, l);
    StepStirs(c, st, l);
    InnerKeepsServing(c, st, l);
    if EndsJob(l) {
      JobEndsOnce(c, st, l);
    }
  }

  lemma InnerKeepsServing(c: Config, st: State, l: Label)
    requires Enabled(c, st, l) && !l.Calls?
    ensures Serving(st.main) ==> Serving(Apply(c, st, l).main)
    ensures ProtocolTraces.NotPickled(st.main) ==> Apply(c, st, l).main == st.main
  {
    match l
    case Mains(k) => MainServes(c, st, k);
    case Loops(k) => LoopLeavesUndisturbed(c, st, k);
    case Exits(k) => ExitLeavesUndisturbed(c, st, k);
    case Users(k) => UserLeavesUndisturbed(c, st, k);
    case Worlds(k) => WorldKeepsServing(c, st, k);
  }

  lemma MainServes(c: Config, st: State, l: MainStep)
    requires MainCan(c, st, l)
    ensures Serving(st.main) ==> Serving(MainDo(c, st, l).main)
    ensures !ProtocolTraces.NotPickled(st.main)
  {
    if Serving(st.main) {
      MainKeepsServing(c, st, l);
    }
  }

  lemma WorldKeepsServing(c: Config, st: State, l: WorldStep)
    requires WorldCan(c, st, l)
    ensures Serving(st.main) ==> Serving(WorldDo(c, st, l).main)
    ensures ProtocolTraces.NotPickled(st.main) ==> WorldDo(c, st, l).main == st.main
  {
    match l
    case PollExpires =>
    case Cancel =>
    case Perish(_) =>
  }

  lemma BeginFits(c: Config, st: State, l: Call, t: nat, d: Diary)
    requires CallCan(c, st, l) && d.starts == 0 && d.ends == [] && !d.cancelled
    requires match l
             case Submit(_) => d.begun == Some(Begin(t))
             case SubmitUnpicklable(exc) => d.begun == Some(BeginUnpicklable(t, exc))
             case _ => false
    ensures Fits(CallDo(c, st, l), t, d)
  {
    match l
    case Submit(_) =>
    case SubmitUnpicklable(_) =>
  }

  /** An answer explains the result that the call leaves with. */
  lemma AnswerExplains(c: Config, st: State, t: nat, d: Diary, phase: Phase)
    requires Inv(c, st) && Fits(st, t, d) && st.main.Done?
    requires match st.main.answer
             case Delivered(o) => phase == Departing(Got(o))
             case Unpicklable(exc) => phase == Departing(Result.NotPickled(exc))
             case Raised(e) => phase == Departing(Failed(FromWorker(e)))
             case Retry => phase == Choosing
    ensures phase.Departing? ==> Explains(phase.result, t, d.(own := Some(Answer(t))))
    ensures phase.Choosing? ==> d.starts == 0 && d.ends == []
  {
  }

  /** Nobody but t, and the worker it is using, touches what t has. */
  lemma OthersLeaveIt(g: Setup, s: Sys, x: Step, t: nat)
    requires Structure(s) && Can(g, s, x) && In(s, t) && !SystemTermination.Own(x, t) && !x.Inner?
    ensures In(Do(g, s, x), t) && Do(g, s, x).tasks[t] == s.tasks[t]
    ensures s.tasks[t].phase.Using? ==>
              var w := s.tasks[t].phase.w;
              w < |s.slots| && w < |Do(g, s, x).slots| && Do(g, s, x).slots[w].st == s.slots[w].st
  {
    assert TaskInv(s.tasks[t], t, s.slots);
    if ByCloser(x) {
      CloserLeavesIt(g, s, x, t);
    } else {
      OtherTasksLeaveIt(g, s, x, t);
    }
  }

  lemma CloserLeavesIt(g: Setup, s: Sys, x: Step, t: nat)
    requires CloserInv(s) && Can(g, s, x) && ByCloser(x) && In(s, t)
    ensures Do(g, s, x).tasks == s.tasks && Do(g, s, x).slots == s.slots
  {
    match x
    case Close =>
    case Signal =>
    case JoinDead =>
    case JoinKill =>
    case Turnover =>
    case Collect =>
  }

  lemma OtherTasksLeaveIt(g: Setup, s: Sys, x: Step, t: nat)
    requires TasksInv(s.slots, s.tasks)
    requires Can(g, s, x) && In(s, t) && !SystemTermination.Own(x, t) && !x.Inner? && !ByCloser(x)
    ensures In(Do(g, s, x), t) && Do(g, s, x).tasks[t] == s.tasks[t]
    ensures s.tasks[t].phase.Using? ==>
              var w := s.tasks[t].phase.w;
              w < |s.slots| && w < |Do(g, s, x).slots| && Do(g, s, x).slots[w].st == s.slots[w].st
  {
    assert TaskInv(s.tasks[t], t, s.slots);
    OtherTasksStay(g, s, x, t);
    if s.tasks[t].phase.Using? {
      if x.Begin? || x.BeginUnpicklable? || x.Answer? || x.GiveUp? {
        HoldersDiffer(s, x.t, t);
      }
      StepFollows(g, s, x, s.tasks[t].phase.w);
      NotItsWorker(g, s, x, s.tasks[t].phase.w);
    }
  }

  lemma OtherTasksStay(g: Setup, s: Sys, x: Step, t: nat)
    requires Can(g, s, x) && In(s, t) && !SystemTermination.Own(x, t) && !x.Inner? && !ByCloser(x)
    ensures In(Do(g, s, x), t) && Do(g, s, x).tasks[t] == s.tasks[t]
    ensures |s.slots| <= |Do(g, s, x).slots|
  {
    match x
    case Enter(_, _) =>
    case Pop(_) =>
    case Make(_) =>
    case StartOk(_) =>
    case StartFails(_) =>
    case Begin(_) =>
    case BeginUnpicklable(_, _) =>
    case Answer(_) =>
    case GiveUp(_) =>
    case Leave(_) =>
  }

  /** A task's step is one of no worker but the one it has. */
  lemma NotItsWorker(g: Setup, s: Sys, x: Step, w: nat)
    requires Can(g, s, x) && !x.Inner? && !ByCloser(x)
    requires x.Begin? || x.BeginUnpicklable? || x.Answer? || x.GiveUp? ==> s.tasks[x.t].phase.w != w
    ensures LabelOf(g, s, x, w).None?
  {
  }

  lemma HoldersDiffer(s: Sys, u: nat, t: nat)
    requires TasksInv(s.slots, s.tasks) && In(s, u) && In(s, t) && u != t
    ensures Holds(s.tasks[u].phase) && Holds(s.tasks[t].phase) ==> s.tasks[u].phase.w != s.tasks[t].phase.w
  {
    assert TaskInv(s.tasks[u], u, s.slots) && TaskInv(s.tasks[t], t, s.slots);
  }

  lemma WorkerKeepsInv(g: Setup, s: Sys, w: nat)
    requires Sane(g.config) && WorkersReachable(g, s) && w < |s.slots|
    ensures Inv(g.config, s.slots[w].st)
  {
    ProtocolResults.ReachableInv(g.config, s.slots[w].st);
  }

  lemma InnerEffect(g: Setup, s: Sys, w: nat, l: Label)
    requires Can(g, s, Inner(w, l))
    ensures var r := Do(g, s, Inner(w, l));
            && r.tasks == s.tasks && |r.slots| == |s.slots| && r.slots[w].st == Apply(g.config, s.slots[w].st, l)
            && forall i :: 0 <= i < |s.slots| && i != w ==> r.slots[i] == s.slots[i]
  {
  }

  /** The diary after a step of the worker in use. */
  function Served(l: Label, d: Diary): Diary {
    d.(starts := d.starts + if l == Loops(Start) then 1 else 0,
       ends := d.ends + if EndsJob(l) then [l.user.o] else [],
       cancelled := d.cancelled || l == Worlds(Cancel))
  }

  lemma OwnWorkerNoted(s: Sys, w: nat, l: Label, t: nat, d: Diary)
    requires In(s, t) && s.tasks[t].phase == Using(w)
    ensures Noted(s, Inner(w, l), t, d) == Served(l, d)
  {
  }

  lemma UsingTold(r: Sys, w: nat, t: nat, d: Diary)
    requires In(r, t) && r.tasks[t].phase == Using(w) && w < |r.slots|
    requires d.job == Some(r.tasks[t].job) && Fits(r.slots[w].st, t, d)
    ensures Told(r, t, d)
  {
  }

  lemma UsingFits(s: Sys, w: nat, t: nat, d: Diary)
    requires In(s, t) && s.tasks[t].phase == Using(w) && Told(s, t, d)
    ensures w < |s.slots| && d.job == Some(s.tasks[t].job) && Fits(s.slots[w].st, t, d)
  {
  }

  lemma OwnWorkerTold(c: Config, s: Sys, r: Sys, w: nat, l: Label, t: nat, d: Diary)
    requires Sane(c) && w < |s.slots| && Inv(c, s.slots[w].st) && Enabled(c, s.slots[w].st, l) && !l.Calls?
    requires In(s, t) && s.tasks[t].phase == Using(w) && Told(s, t, d)
    requires r.tasks == s.tasks && |r.slots| == |s.slots| && r.slots[w].st == Apply(c, s.slots[w].st, l)
    ensures Told(r, t, Noted(s, Inner(w, l), t, d))
  {
    UsingFits(s, w, t, d);
    InnerFits(c, s.slots[w].st, l, t, d);
    OwnWorkerNoted(s, w, l, t, d);
    UsingTold(r, w, t, Served(l, d));
  }

  lemma OtherWorkerTold(g: Setup, s: Sys, x: Step, t: nat, d: Diary)
    requires Can(g, s, x) && x.Inner? && !ForTask(s, x, t) && Told(s, t, d)
    ensures Told(Do(g, s, x), t, d)
  {
  }

  lemma InnerTold(g: Setup, s: Sys, x: Step, t: nat, d: Diary)
    requires Sane(g.config) && WorkersReachable(g, s) && Can(g, s, x) && x.Inner? && Told(s, t, d)
    ensures Told(Do(g, s, x), t, Noted(s, x, t, d))
  {
    if ForTask(s, x, t) {
      WorkerKeepsInv(g, s, x.w);
      InnerEffect(g, s, x.w, x.l);
      OwnWorkerTold(g.config, s, Do(g, s, x), x.w, x.l, t, d);
    } else {
      OtherWorkerTold(g, s, x, t, d);
    }
  }

  /** Up to the attempt ... */
  lemma ChoosingTold(g: Setup, s: Sys, x: Step, t: nat, d: Diary)
    requires Can(g, s, x) && SystemTermination.Own(x, t) && Told(s, t, d)
    requires x.Enter? || x.Pop? || x.Make? || x.StartOk? || x.StartFails? || x.Leave?
    ensures Told(Do(g, s, x), t, Noted(s, x, t, d))
  {
    match x
    case Enter(_, _) =>
    case Pop(_) =>
    case Make(_) =>
    case StartOk(_) =>
    case StartFails(_) =>
    case Leave(_) =>
  }

  /** ... at its beginning ... */
  lemma BeginningTold(g: Setup, s: Sys, x: Step, t: nat, d: Diary)
    requires Can(g, s, x) && SystemTermination.Own(x, t) && Told(s, t, d) && (x.Begin? || x.BeginUnpicklable?)
    ensures Told(Do(g, s, x), t, Noted(s, x, t, d))
  {
    var w, e := s.tasks[t].phase.w, Noted(s, x, t, d);
    if x.Begin? {
      BeginFits(g.config, s.slots[w].st, Submit(s.tasks[t].job), t, e);
    } else {
      BeginFits(g.config, s.slots[w].st, SubmitUnpicklable(x.exc), t, e);
    }
  }

  lemma AnswerKeepsJob(g: Setup, s: Sys, t: nat)
    requires Can(g, s, Answer(t))
    ensures In(Do(g, s, Answer(t)), t) && Do(g, s, Answer(t)).tasks[t].job == s.tasks[t].job
  {
  }

  /** ... and at its end, which leads to r. */
  lemma AnsweringTold(c: Config, s: Sys, r: Sys, t: nat, d: Diary)
    requires Answered(s, t) && Inv(c, s.slots[s.tasks[t].phase.w].st) && Told(s, t, d)
    requires In(r, t) && r.tasks[t].job == s.tasks[t].job
    requires var phase := r.tasks[t].phase;
             match s.slots[s.tasks[t].phase.w].st.main.answer
             case Delivered(o) => phase == Departing(Got(o))
             case Unpicklable(exc) => phase == Departing(Result.NotPickled(exc))
             case Raised(e) => phase == Departing(Failed(FromWorker(e)))
             case Retry => phase == Choosing
    ensures Told(r, t, Noted(s, Answer(t), t, d))
  {
    AnswerExplains(c, s.slots[s.tasks[t].phase.w].st, t, d, r.tasks[t].phase);
  }

  lemma NoneStartsNothing(c: Config, st: State, t: nat, d: Diary)
    requires Inv(c, st) && Fits(st, t, d) && st.main == Done(Retry)
    ensures d.starts == 0
  {
  }

  lemma GivingUpTold(g: Setup, s: Sys, t: nat, d: Diary)
    requires Can(g, s, GiveUp(t)) && Told(s, t, d) && d.starts == 0
    ensures Told(Do(g, s, GiveUp(t)), t, Noted(s, GiveUp(t), t, d))
  {
  }

  lemma EndingTold(g: Setup, s: Sys, x: Step, t: nat, d: Diary)
    requires Sane(g.config) && WorkersReachable(g, s) && Can(g, s, x) && Told(s, t, d)
    requires x == Answer(t) || x == GiveUp(t)
    ensures Told(Do(g, s, x), t, Noted(s, x, t, d))
  {
    var w := s.tasks[t].phase.w;
    WorkerKeepsInv(g, s, w);
    if x.Answer? {
      AnswerLeaves(g, s, t);
      AnswerKeepsJob(g, s, t);
      AnsweringTold(g.config, s, Do(g, s, x), t, d);
    } else {
      NoneStartsNothing(g.config, s.slots[w].st, t, d);
      GivingUpTold(g, s, t, d);
    }
  }

  lemma OthersTold(g: Setup, s: Sys, x: Step, t: nat, d: Diary)
    requires Structure(s) && Can(g, s, x) && !SystemTermination.Own(x, t) && !x.Inner? && Told(s, t, d)
    ensures Told(Do(g, s, x), t, d)
  {
    if In(s, t) {
      OthersLeaveIt(g, s, x, t);
    } else {
      NobodyElseEnters(g, s, x, t);
    }
  }

  lemma StepTold(g: Setup, s: Sys, x: Step, t: nat, d: Diary)
    requires Sane(g.config) && SysInv(g, s) && Can(g, s, x) && Told(s, t, d)
    ensures Told(Do(g, s, x), t, Noted(s, x, t, d))
  {
    if x.Inner? {
      InnerTold(g, s, x, t, d);
    } else if !SystemTermination.Own(x, t) {
      OthersTold(g, s, x, t, d);
    } else if x.Begin? || x.BeginUnpicklable? {
      BeginningTold(g, s, x, t, d);
    } else if x.Answer? || x.GiveUp? {
      EndingTold(g, s, x, t, d);
    } else {
      ChoosingTold(g, s, x, t, d);
    }
  }

  lemma NobodyElseEnters(g: Setup, s: Sys, x: Step, t: nat)
    requires Can(g, s, x) && !In(s, t) && !SystemTermination.Own(x, t)
    ensures !In(Do(g, s, x), t)
  {
    match x
    case Enter(_, _) =>
    case Pop(_) =>
    case Make(_) =>
    case StartOk(_) =>
    case StartFails(_) =>
    case Begin(_) =>
    case BeginUnpicklable(_, _) =>
    case Inner(_, _) =>
    case Answer(_) =>
    case GiveUp(_) =>
    case Leave(_) =>
    case Close =>
    case Signal =>
    case JoinDead =>
    case JoinKill =>
    case Turnover =>
    case Collect =>
  }

  lemma {:induction false} RunTold(g: Setup, s: Sys, xs: seq<Step>, t: nat, d: Diary)
    requires Sane(g.config) && SysInv(g, s) && Possible(g, s, xs) && Told(s, t, d)
    ensures Told(Ran(g, s, xs), t, Kept(g, s, xs, t, d)) && SysInv(g, Ran(g, s, xs))
    decreases |xs|
  {
    if xs != [] {
      StepTold(g, s, xs[0], t, d);
      SystemResults.StepKeepsInv(g, s, xs[0]);
      RunTold(g, Do(g, s, xs[0]), xs[1..], t, Noted(s, xs[0], t, d));
    }
  }

  lemma WorkerRunsIt(g: Setup, s: Sys, t: nat, d: Diary)
    requires Sane(g.config) && SysInv(g, s) && Told(s, t, d) && In(s, t) && s.tasks[t].phase.Using?
    ensures var w := s.tasks[t].phase.w;
            w < |s.slots| && (s.slots[w].st.worker.Run? ==>
              d.job.Some? && d.job.value == s.slots[w].st.worker.job && d.starts == 1 && d.ends == [])
  {
    var w := s.tasks[t].phase.w;
    assert TaskInv(s.tasks[t], t, s.slots);
    if s.slots[w].st.worker.Run? {
      ProtocolResults.OwnJobOnly(g.config, s.slots[w].st);
      WorkerKeepsInv(g, s, w);
    }
  }

  /** Exactly-once delivery, by what happens: in every run of a context, over all the workers
      a call has tried, what it leaves with is explained by the steps since it entered. A
      delivered outcome is what the one entry of handle_job ended in; handle_job is entered
      with the job the task entered with; and while the call is still choosing, none of its
      attempts has entered it. */
  lemma CallsTold(g: Setup, xs: seq<Step>, t: nat)
    requires Sane(g.config) && Possible(g, Empty(), xs)
    ensures var s, d := Ran(g, Empty(), xs), Kept(g, Empty(), xs, t, Blank());
            In(s, t) ==>
              match s.tasks[t].phase
              case Departing(r) => Explains(r, t, d)
              case Using(w) =>
                w < |s.slots| && (s.slots[w].st.worker.Run? ==>
                  d.job.Some? && d.job.value == s.slots[w].st.worker.job && d.starts == 1 && d.ends == [])
              case _ => d.starts == 0 && d.ends == []
  {
    NothingYet(g, Empty());
    RunTold(g, Empty(), xs, t, Blank());
    var s := Ran(g, Empty(), xs);
    if In(s, t) && s.tasks[t].phase.Using? {
      WorkerRunsIt(g, s, t, Kept(g, Empty(), xs, t, Blank()));
    }
  }

  // ------------------------------------------------------------- a worker's part

  /** What a step of the context is to worker w. */
  function LabelOf(g: Setup, s: Sys, x: Step, w: nat): Option<Label>
    requires Can(g, s, x)
  {
    match x
    case Inner(v, l) => if v == w then Some(l) else None
    case Begin(t) => if s.tasks[t].phase.w == w then Some(Calls(Submit(s.tasks[t].job))) else None
    case BeginUnpicklable(t, exc) => if s.tasks[t].phase.w == w then Some(Calls(SubmitUnpicklable(exc))) else None
    case Answer(t) =>
      var a := s.slots[s.tasks[t].phase.w].st.main.answer;
      if s.tasks[t].phase.w == w && (a.Delivered? || a.Unpicklable?) then Some(Calls(Return)) else None
    case Signal => if s.cache[s.closer.k] == w then Some(Calls(Call.Shutdown)) else None
    case JoinKill => if s.cache[s.closer.k] == w then Some(Calls(ShutKill)) else None
    case _ => None
  }

  /** Its state; a worker that is not made yet will be fresh. */
  function StateOf(s: Sys, w: nat): State {
    if w < |s.slots| then s.slots[w].st else Fresh()
  }

  function Part(g: Setup, s: Sys, xs: seq<Step>, w: nat): seq<Label>
    requires Possible(g, s, xs)
    decreases |xs|
  {
    if xs == [] then []
    else
      var rest := Part(g, Do(g, s, xs[0]), xs[1..], w);
      if LabelOf(g, s, xs[0], w).Some? then [LabelOf(g, s, xs[0], w).value] + rest else rest
  }

  predicate Follows(g: Setup, s: Sys, x: Step, w: nat)
    requires Can(g, s, x)
  {
    var l := LabelOf(g, s, x, w);
    if l.Some? then Enabled(g.config, StateOf(s, w), l.value) && StateOf(Do(g, s, x), w) == Apply(g.config, StateOf(s, w), l.value)
    else StateOf(Do(g, s, x), w) == StateOf(s, w)
  }

  predicate Calling(x: Step) {
    x.Begin? || x.BeginUnpicklable? || x.Answer? || x.GiveUp?
  }

  lemma CallingFollows(g: Setup, s: Sys, x: Step, w: nat)
    requires Can(g, s, x) && Calling(x)
    ensures Follows(g, s, x, w)
  {
    match x
    case Begin(_) =>
    case BeginUnpicklable(_, _) =>
    case Answer(_) =>
    case GiveUp(_) =>
  }

  lemma QuietStepFollows(g: Setup, s: Sys, x: Step, w: nat)
    requires Can(g, s, x) && !Calling(x) && !x.Inner? && !ByCloser(x)
    ensures Follows(g, s, x, w)
  {
    match x
    case Enter(_, _) =>
    case Pop(_) =>
    case Make(_) =>
    case StartOk(_) =>
    case StartFails(_) =>
    case Leave(_) =>
  }

  lemma InnerFollows(g: Setup, s: Sys, x: Step, w: nat)
    requires Can(g, s, x) && x.Inner?
    ensures Follows(g, s, x, w)
  {
  }

  lemma CloserFollows(g: Setup, s: Sys, x: Step, w: nat)
    requires Can(g, s, x) && ByCloser(x)
    ensures Follows(g, s, x, w)
  {
    match x
    case Close =>
    case Signal =>
    case JoinDead =>
    case JoinKill =>
    case Turnover =>
    case Collect =>
  }

  lemma StepFollows(g: Setup, s: Sys, x: Step, w: nat)
    requires Can(g, s, x)
    ensures Follows(g, s, x, w)
  {
    if x.Inner? {
      InnerFollows(g, s, x, w);
    } else if ByCloser(x) {
      CloserFollows(g, s, x, w);
    } else if Calling(x) {
      CallingFollows(g, s, x, w);
    } else {
      QuietStepFollows(g, s, x, w);
    }
  }

  /** A worker's part of a run of the context is a run of the protocol, to the state the
      worker is in. */
  lemma {:induction false} PartIsARun(g: Setup, s: Sys, xs: seq<Step>, w: nat)
    requires Possible(g, s, xs)
    ensures var ls := Part(g, s, xs, w);
            ProtocolResults.Possible(g.config, StateOf(s, w), ls)
            && ProtocolResults.After(g.config, StateOf(s, w), ls) == StateOf(Ran(g, s, xs), w)
    decreases |xs|
  {
    if xs != [] {
      var x, rest := xs[0], Part(g, Do(g, s, xs[0]), xs[1..], w);
      StepFollows(g, s, x, w);
      PartIsARun(g, Do(g, s, x), xs[1..], w);
      if LabelOf(g, s, x, w).Some? {
        ProtocolResults.Prepend(g.config, StateOf(s, w), LabelOf(g, s, x, w).value, rest);
      }
    }
  }

  /** So all that is told of runs of the protocol holds in a context: an answer a call comes
      to accounts for the part of the worker behind it. */
  lemma ContextAnswersTold(g: Setup, xs: seq<Step>, t: nat)
    requires Sane(g.config) && Possible(g, Empty(), xs) && Answered(Ran(g, Empty(), xs), t)
    ensures var s := Ran(g, Empty(), xs);
            var w := s.tasks[t].phase.w;
            Accounts(s.slots[w].st.main.answer, Part(g, Empty(), xs, w))
  {
    var s := Ran(g, Empty(), xs);
    var w := s.tasks[t].phase.w;
    PartIsARun(g, Empty(), xs, w);
    AnswersTold(g.config, Part(g, Empty(), xs, w));
  }

  // ------------------------------------------------------- how the shutdown ends

  /** A joined worker that had to be killed, or that exited with a code other than 0. */
  predicate Unclean(slots: seq<Slot>, cache: seq<nat>, j: nat)
  {
    j < |cache| && cache[j] < |slots|
    && (slots[cache[j]].st.killed || (slots[cache[j]].st.worker.Dead? && slots[cache[j]].st.worker.code != 0))
  }

  ghost predicate BadHasReason(s: Sys) {
    BadSoFar(s.closer) ==> exists j :: 0 <= j < Joined(s.closer, |s.cache|) && Unclean(s.slots, s.cache, j)
  }

  lemma StaysUnclean(g: Setup, s: Sys, x: Step, j: nat)
    requires CloserInv(s) && Shutting(s.closer) && Can(g, s, x) && Unclean(s.slots, s.cache, j)
    ensures Unclean(Do(g, s, x).slots, Do(g, s, x).cache, j)
  {
    OnlyTheCloserMoves(g, s, x);
    if x.Inner? {
      InnerLeavesUndisturbed(g.config, s.slots[x.w].st, x.l);
    }
  }

  lemma BadGetsReason(g: Setup, s: Sys, x: Step)
    requires CloserInv(s) && Can(g, s, x) && BadHasReason(s)
    ensures BadHasReason(Do(g, s, x))
  {
    if Shutting(s.closer) {
      OnlyTheCloserMoves(g, s, x);
      if BadSoFar(s.closer) {
        var j :| 0 <= j < Joined(s.closer, |s.cache|) && Unclean(s.slots, s.cache, j);
        StaysUnclean(g, s, x, j);
      } else if x.JoinDead? || x.JoinKill? {
        var k, r := s.closer.k, Do(g, s, x);
        assert BadSoFar(r.closer) ==> Unclean(r.slots, r.cache, k);
      }
    } else {
      NotBadBefore(g, s, x);
    }
  }

  lemma NotBadBefore(g: Setup, s: Sys, x: Step)
    requires Can(g, s, x) && !Shutting(s.closer)
    ensures !BadSoFar(Do(g, s, x).closer)
  {
    match x
    case Enter(_, _) =>
    case Pop(_) =>
    case Make(_) =>
    case StartOk(_) =>
    case StartFails(_) =>
    case Begin(_) =>
    case BeginUnpicklable(_, _) =>
    case Inner(_, _) =>
    case Answer(_) =>
    case GiveUp(_) =>
    case Leave(_) =>
    case Close =>
  }

  lemma {:induction false} RunHasReason(g: Setup, s: Sys, xs: seq<Step>)
    requires Sane(g.config) && SysInv(g, s) && BadHasReason(s) && Possible(g, s, xs)
    ensures BadHasReason(Ran(g, s, xs))
    decreases |xs|
  {
    if xs != [] {
      BadGetsReason(g, s, xs[0]);
      SystemResults.StepKeepsInv(g, s, xs[0]);
      RunHasReason(g, Do(g, s, xs[0]), xs[1..]);
    }
  }

  lemma NotRaisedIsClean(s: Sys, j: nat)
    requires CacheInv(s.slots, s.cache, s.closer) && s.closer.Closed? && !s.closer.raised
    ensures !Unclean(s.slots, s.cache, j)
  {
  }

  lemma ClosedHasReason(s: Sys)
    requires CacheInv(s.slots, s.cache, s.closer) && BadHasReason(s) && s.closer.Closed?
    ensures s.closer.raised <==> exists j: nat :: Unclean(s.slots, s.cache, j)
  {
    if !s.closer.raised {
      forall j: nat
        ensures !Unclean(s.slots, s.cache, j)
      {
        NotRaisedIsClean(s, j);
      }
    }
  }

  lemma FromTheStart(g: Setup, e: Sys, xs: seq<Step>) returns (s: Sys)
    requires Sane(g.config) && e == Empty() && Possible(g, e, xs)
    ensures s == Ran(g, e, xs) && SysInv(g, s) && BadHasReason(s)
  {
    NothingYet(g, e);
    RunHasReason(g, e, xs);
    SystemResults.RunKeepsInv(g, e, xs);
    s := Ran(g, e, xs);
  }

  /** Closing raises if and only if a cached worker was killed or exited with a code other
      than 0. */
  lemma RaisesExactly(g: Setup, xs: seq<Step>)
    requires Sane(g.config) && Possible(g, Empty(), xs) && Ran(g, Empty(), xs).closer.Closed?
    ensures var s := Ran(g, Empty(), xs);
            s.closer.raised <==> exists j: nat :: Unclean(s.slots, s.cache, j)
  {
    var s := FromTheStart(g, Empty(), xs);
    ClosedHasReason(s);
  }
}
