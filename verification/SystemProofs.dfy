/** Every step of the whole system keeps its invariant. */
module SystemProofs {
  import opened Options
  import opened Framing
  import opened Protocol
  import opened ProtocolProofs
  import opened Pruning
  import opened System

  // ------------------------------------------------------------------ counting

  lemma Fewer(a: set<nat>, b: set<nat>)
    requires a <= b
    ensures |a| <= |b|
  {
    assert b == a + (b - a);
  }

  lemma HoldersAmong(tasks: map<nat, Task>)
    ensures |Holders(tasks)| <= |tasks|
  {
    Fewer(Holders(tasks), tasks.Keys);
    assert |tasks| == |tasks.Keys|;
  }

  lemma HoldersAfter(tasks: map<nat, Task>, t: nat, task: Task)
    ensures Holders(tasks[t := task]) == if Holds(task.phase) then Holders(tasks) + {t} else Holders(tasks) - {t}
    ensures |tasks[t := task]| == |tasks| + if t in tasks then 0 else 1
  {
    var after := tasks[t := task];
    forall u
      ensures u in Holders(after) <==> if u == t then Holds(task.phase) else u in Holders(tasks)
    {
    }
    CountAfter(tasks, t, task);
  }

  lemma CountAfter(tasks: map<nat, Task>, t: nat, task: Task)
    ensures |tasks[t := task]| == |tasks| + if t in tasks then 0 else 1
  {
    assert tasks[t := task].Keys == tasks.Keys + {t};
    assert |tasks[t := task]| == |tasks[t := task].Keys| && |tasks| == |tasks.Keys|;
  }

  lemma HoldersWithout(tasks: map<nat, Task>, t: nat)
    requires t in tasks
    ensures Holders(tasks - {t}) == Holders(tasks) - {t}
    ensures |tasks - {t}| == |tasks| - 1
  {
    assert (tasks - {t}).Keys == tasks.Keys - {t};
    assert |tasks - {t}| == |(tasks - {t}).Keys| && |tasks| == |tasks.Keys|;
  }

  lemma EnterCounts(g: Setup, s: Sys, t: nat, job: Payload)
    requires CountInv(g, s) && !In(s, t) && (g.limit.Some? ==> |s.tasks| < g.limit.value)
    ensures CountInv(g, Admit(s, t, job))
  {
    HoldersAfter(s.tasks, t, Task(job, Choosing, 0, None));
  }

  /** A task's history moves on; it may come to hold a worker if the cache gives one up, or
      give one up to the cache. */
  lemma TaskCounts(g: Setup, s: Sys, t: nat, task: Task, cache: seq<nat>, slots: seq<Slot>)
    requires CountInv(g, s) && In(s, t)
    requires |cache| + (if Holds(task.phase) then 1 else 0) <= |s.cache| + (if Holds(s.tasks[t].phase) then 1 else 0)
    ensures CountInv(g, s.(tasks := s.tasks[t := task], cache := cache, slots := slots))
  {
    HoldersAfter(s.tasks, t, task);
  }

  lemma PopCounts(g: Setup, s: Sys, t: nat)
    requires CountInv(g, s) && In(s, t) && s.cache != [] && s.cache[|s.cache| - 1] < |s.slots|
    ensures CountInv(g, TakeLast(s, t))
  {
    var r := TakeLast(s, t);
    TaskCounts(g, s, t, r.tasks[t], r.cache, r.slots);
  }

  /** Whatever else becomes of the workers. */
  lemma PhaseCounts(g: Setup, s: Sys, t: nat, phase: Phase, slots: seq<Slot>)
    requires CountInv(g, s) && In(s, t) && (Holds(phase) ==> Holds(s.tasks[t].phase))
    ensures CountInv(g, SetPhase(s, t, phase).(slots := slots))
  {
    TaskCounts(g, s, t, s.tasks[t].(phase := phase), s.cache, slots);
  }

  lemma SettleCounts(g: Setup, s: Sys, t: nat, phase: Phase)
    requires CountInv(g, s) && Answered(s, t) && !Holds(phase)
    ensures CountInv(g, Settle(g, s, t, phase))
  {
    var r := Settle(g, s, t, phase);
    TaskCounts(g, s, t, r.tasks[t], r.cache, r.slots);
  }

  lemma MakeCounts(g: Setup, s: Sys, t: nat)
    requires CountInv(g, s) && In(s, t) && s.cache == []
    ensures CountInv(g, Create(s, t))
  {
    var tasks := Create(s, t).tasks;
    HoldersAfter(s.tasks, t, tasks[t]);
    HoldersAmong(tasks);
  }

  lemma LeaveCounts(g: Setup, s: Sys, t: nat)
    requires CountInv(g, s) && In(s, t)
    ensures CountInv(g, Depart(s, t))
  {
    HoldersWithout(s.tasks, t);
  }

  // ------------------------------------------------------------- who holds what

  /** Dropping dead workers from the left end leaves every worker accounted for. */
  lemma PrunedKeeps(s: Sys)
    requires SlotsInv(s.slots, s.cache, s.tasks) && CacheInv(s.slots, s.cache, Open)
    ensures SlotsInv(s.slots, Pruned(s), s.tasks) && CacheInv(s.slots, Pruned(s), Open)
  {
    PrunedAreDead(s);
    SuffixKeeps(s.slots, s.cache, Leading(DeadFlags(s)));
  }

  lemma PrunedAreDead(s: Sys)
    ensures forall i: nat :: i in s.cache && i !in Pruned(s) ==> IsDead(s, i)
  {
    var n := Leading(DeadFlags(s));
    assert s.cache == s.cache[..n] + s.cache[n..];
  }

  lemma SuffixKeeps(slots: seq<Slot>, cache: seq<nat>, n: nat)
    requires CacheInv(slots, cache, Open) && n <= |cache|
    ensures CacheInv(slots, cache[n..], Open)
  {
  }

  lemma AdmitKeeps(s: Sys, t: nat, job: Payload)
    requires Structure(s) && !In(s, t) && !s.life.waiting
    ensures Structure(Admit(s, t, job))
  {
    PrunedKeeps(s);
  }

  lemma PopKeeps(s: Sys, t: nat)
    requires Structure(s) && In(s, t) && s.tasks[t].phase.Choosing?
    requires s.cache != [] && s.cache[|s.cache| - 1] < |s.slots|
    ensures Structure(TakeLast(s, t))
  {
  }

  lemma MakeKeeps(s: Sys, t: nat)
    requires Structure(s) && In(s, t) && s.tasks[t].phase.Choosing? && s.cache == []
    ensures Structure(Create(s, t))
  {
  }

  lemma StartOkKeeps(s: Sys, t: nat, w: nat)
    requires Structure(s) && In(s, t) && s.tasks[t].phase == Starting(w) && w < |s.slots|
    ensures Structure(SetPhase(s, t, Holding(w)).(slots := s.slots[w := s.slots[w].(started := true)]))
  {
  }

  lemma StartFailsKeeps(s: Sys, t: nat, w: nat)
    requires Structure(s) && In(s, t) && s.tasks[t].phase == Starting(w) && w < |s.slots|
    ensures Structure(SetOwner(SetPhase(s, t, Departing(Failed(NotStarted))), w, Gone))
  {
  }

  lemma BeginKeeps(s: Sys, t: nat, w: nat, st: State)
    requires Structure(s) && In(s, t) && s.tasks[t].phase == Holding(w) && InUse(st, s.tasks[t].job)
    ensures Structure(SetState(SetPhase(s, t, Using(w)), w, st))
  {
  }

  lemma LeaveKeeps(s: Sys, t: nat)
    requires Structure(s) && In(s, t) && s.tasks[t].phase.Departing? && s.life.Running() == |s.tasks|
    ensures Structure(Depart(s, t))
  {
    HoldersWithout(s.tasks, t);
    assert s.tasks - {t} == map[] <==> |s.tasks - {t}| == 0;
  }

  lemma CloseKeeps(s: Sys)
    requires Structure(s) && s.closer.Open? && s.life.Running() == |s.tasks|
    ensures Structure(BeginClose(s))
  {
  }

  lemma SignalKeeps(s: Sys, w: nat, st: State)
    requires Structure(s) && s.closer.Signalling? && s.closer.k < |s.cache| && s.cache[s.closer.k] == w < |s.slots|
    requires st == s.slots[w].st.(main := Shut, mainOpen := false)
    ensures Structure(SetState(s, w, st).(closer := Signalling(s.closer.k + 1)))
  {
  }

  lemma JoinDeadKeeps(s: Sys, bad: bool)
    requires Structure(s) && s.closer.Joining? && s.closer.k < |s.cache| && IsDead(s, s.cache[s.closer.k])
    requires bad == (s.slots[s.cache[s.closer.k]].st.worker.code != 0)
    ensures Structure(s.(closer := Joining(s.closer.k + 1, s.closer.bad || bad)))
  {
  }

  lemma DoomKeeps(s: Sys, w: nat, st: State)
    requires Structure(s) && s.closer.Joining? && s.closer.k < |s.cache| && s.cache[s.closer.k] == w < |s.slots|
    requires st.main == s.slots[w].st.main && st.worker == s.slots[w].st.worker && (st.killed || st.worker.Dead?)
    ensures Structure(SetState(s, w, st).(closer := Joining(s.closer.k + 1, true)))
  {
  }

  lemma TurnoverKeeps(s: Sys)
    requires Structure(s) && (s.closer.Signalling? || s.closer.Joining?) && s.closer.k == |s.cache|
    ensures Structure(s.(closer := if s.closer.Signalling? then Joining(0, false) else Collecting(s.closer.bad)))
  {
  }

  lemma CollectKeeps(s: Sys)
    requires Structure(s) && s.closer.Collecting?
    requires forall j :: 0 <= j < |s.cache| ==> s.cache[j] < |s.slots| && (s.slots[s.cache[j]].st.killed ==> IsDead(s, s.cache[j]))
    ensures Structure(s.(closer := Closed(s.closer.bad)))
  {
  }

  lemma MoveKeeps(s: Sys, w: nat, st: State)
    requires Structure(s) && w < |s.slots| && s.slots[w].started && Undisturbed(s.slots[w].st, st)
    ensures Structure(SetState(s, w, st))
  {
  }

  lemma KeptIsCached(s: Sys, w: nat, slot: Slot)
    requires CacheInv(s.slots, s.cache, s.closer) && !Shutting(s.closer) && w < |s.slots| && !s.slots[w].owner.Cached?
    requires slot.owner.Cached? && slot.st.main.Idle? && !slot.st.killed
    ensures CacheInv(s.slots[w := slot], s.cache + [w], s.closer)
  {
  }

  lemma KeptIsPlaced(s: Sys, t: nat, w: nat, slot: Slot, task: Task)
    requires SlotsInv(s.slots, s.cache, s.tasks) && In(s, t) && s.tasks[t].phase == Using(w) && w < |s.slots|
    requires slot.owner.Cached? && slot.st.main.Idle? && slot.started && s.slots[w].owner == Held(t)
    ensures SlotsInv(s.slots[w := slot], s.cache + [w], s.tasks[t := task])
  {
  }

  lemma AnswerIsTold(s: Sys, t: nat, w: nat, slot: Slot, task: Task)
    requires TasksInv(s.slots, s.tasks) && In(s, t) && s.tasks[t].phase == Using(w) && w < |s.slots|
    requires !Holds(task.phase) && TaskInv(task, t, s.slots)
    ensures TasksInv(s.slots[w := slot], s.tasks[t := task])
  {
  }

  lemma KeptKeeps(g: Setup, s: Sys, t: nat, a: Answer)
    requires Structure(s) && Answered(s, t) && (a.Delivered? || a.Unpicklable?)
    requires var st := s.slots[s.tasks[t].phase.w].st;
             st.main == Done(a) && Contract(a, st.entries, st.made, st.worker.Dead?) && !st.killed
    ensures Structure(Settle(g, s, t, After(a)))
  {
    var w := s.tasks[t].phase.w;
    var r := Settle(g, s, t, After(a));
    KeptIsCached(s, w, r.slots[w]);
    KeptIsPlaced(s, t, w, r.slots[w], r.tasks[t]);
    AnswerIsTold(s, t, w, r.slots[w], r.tasks[t]);
  }

  lemma DroppedIsPlaced(s: Sys, t: nat, w: nat, slot: Slot, task: Task)
    requires SlotsInv(s.slots, s.cache, s.tasks) && In(s, t) && s.tasks[t].phase == Using(w) && w < |s.slots|
    requires slot.owner.Gone? && Unused(slot.st) && slot.st.worker.Dead? && s.slots[w].owner == Held(t)
    ensures SlotsInv(s.slots[w := slot], s.cache, s.tasks[t := task])
  {
  }

  lemma DroppedIsNotCached(s: Sys, w: nat, slot: Slot)
    requires CacheInv(s.slots, s.cache, s.closer) && w < |s.slots| && !s.slots[w].owner.Cached?
    ensures CacheInv(s.slots[w := slot], s.cache, s.closer)
  {
  }

  lemma DroppedKeeps(g: Setup, s: Sys, t: nat, a: Answer, phase: Phase)
    requires Structure(s) && Answered(s, t) && (a.Retry? || a.Raised?)
    requires phase == After(a) || (a.Retry? && phase == Departing(Failed(GaveUp)))
    requires var st := s.slots[s.tasks[t].phase.w].st;
             st.main == Done(a) && Contract(a, st.entries, st.made, st.worker.Dead?)
    ensures Structure(Settle(g, s, t, phase))
  {
    var w := s.tasks[t].phase.w;
    var r := Settle(g, s, t, phase);
    DroppedIsNotCached(s, w, r.slots[w]);
    DroppedIsPlaced(s, t, w, r.slots[w], r.tasks[t]);
    AnswerIsTold(s, t, w, r.slots[w], r.tasks[t]);
  }

  lemma AnswerKeeps(g: Setup, s: Sys, t: nat)
    requires Structure(s) && Answered(s, t)
    requires var st := s.slots[s.tasks[t].phase.w].st;
             && Contract(st.main.answer, st.entries, st.made, st.worker.Dead?)
             && (st.main.answer.Delivered? || st.main.answer.Unpicklable? ==> !st.killed)
    ensures Structure(Settle(g, s, t, After(s.slots[s.tasks[t].phase.w].st.main.answer)))
  {
    var a := s.slots[s.tasks[t].phase.w].st.main.answer;
    if a.Delivered? || a.Unpicklable? {
      KeptKeeps(g, s, t, a);
    } else {
      DroppedKeeps(g, s, t, a, After(a));
    }
  }

  // --------------------------------------------------------------- every worker

  /** A worker's state moves by a step of the protocol, if at all. */
  ghost predicate Moves(c: Config, st: State, st': State) {
    st' == st || exists l :: Enabled(c, st, l) && Apply(c, st, l) == st'
  }

  lemma Moved(c: Config, st: State, l: Label)
    requires Enabled(c, st, l)
    ensures Moves(c, st, Apply(c, st, l))
  {
  }

  /** No step of the system touches a worker but by a step of the protocol, and new workers
      are fresh. */
  lemma WorkersMove(g: Setup, s: Sys, x: Step)
    requires Can(g, s, x)
    ensures |s.slots| <= |Do(g, s, x).slots|
    ensures forall i :: 0 <= i < |s.slots| ==> Moves(g.config, s.slots[i].st, Do(g, s, x).slots[i].st)
    ensures forall i :: |s.slots| <= i < |Do(g, s, x).slots| ==> Do(g, s, x).slots[i].st == Fresh()
  {
    match x
    case Enter(_, _) =>
    case Pop(_) =>
    case Make(_) =>
    case StartOk(_) =>
    case StartFails(_) =>
    case Begin(t) => Moved(g.config, s.slots[s.tasks[t].phase.w].st, Calls(Submit(s.tasks[t].job)));
    case BeginUnpicklable(t, exc) => Moved(g.config, s.slots[s.tasks[t].phase.w].st, Calls(SubmitUnpicklable(exc)));
    case Inner(w, l) => Moved(g.config, s.slots[w].st, l);
    case Answer(t) => Returns(g.config, s.slots[s.tasks[t].phase.w].st);
    case GiveUp(t) => Returns(g.config, s.slots[s.tasks[t].phase.w].st);
    case Leave(_) =>
    case Close =>
    case Signal => Moved(g.config, s.slots[s.cache[s.closer.k]].st, Calls(Shutdown));
    case JoinDead =>
    case JoinKill => Moved(g.config, s.slots[s.cache[s.closer.k]].st, Calls(ShutKill));
    case Turnover =>
    case Collect =>
  }

  lemma Returns(c: Config, st: State)
    ensures st.main.Done? && (st.main.answer.Delivered? || st.main.answer.Unpicklable?) ==>
              Moves(c, st, st.(main := Idle))
  {
    if st.main.Done? && (st.main.answer.Delivered? || st.main.answer.Unpicklable?) {
      Moved(c, st, Calls(Return));
    }
  }
}
