/**
 A whole context: any number of tasks inside `WorkerContext.run_sync`, the shared cache of
 workers, every worker it ever made with its own protocol state, the lifetime counters and
 one closer in `_aclose`. Steps of all of them interleave freely.
 */
module System {
  import opened Options
  import opened Framing
  import opened Protocol
  import opened Lifetime
  import opened Pruning

  /** How a call of `WorkerContext.run_sync` leaves. */
  datatype Result = Got(outcome: Outcome) | NotPickled(exc: Bytes) | Failed(why: Failure)

  datatype Failure = NotStarted | GaveUp | FromWorker(exc: Exc)

  datatype Phase =
    | Choosing                 // at the top of the retry loop
    | Starting(w: nat)         // has made a worker, which is not started yet
    | Holding(w: nat)          // about to call worker.run_sync
    | Using(w: nat)            // inside worker.run_sync
    | Departing(result: Result)  // about to leave the lifetime manager

  /** `ran` counts entries of handle_job for a task's job, over all workers tried, and
      `made` is what the last worker tried made of it (history). */
  datatype Task = Task(job: Payload, phase: Phase, ran: nat, made: Option<Outcome>)

  /** Who had the worker last (history). */
  datatype Owner = Cached | Held(t: nat) | Gone

  datatype Slot = Slot(st: State, started: bool, owner: Owner)

  datatype Closer =
    | Open
    | Parked
    | Signalling(k: nat)           // shutdown's first loop
    | Joining(k: nat, bad: bool)   // its second loop; bad once a worker is unclean or killed
    | Collecting(bad: bool)        // joining the killed ones
    | Closed(raised: bool)

  /** `slots` lists every worker ever made, in order; the other history fields are the
      highest number of tasks there ever was inside, and what became of the closer. */
  datatype Sys = Sys(
    slots: seq<Slot>,
    cache: seq<nat>,
    tasks: map<nat, Task>,
    life: Lifetime,
    closer: Closer,
    peak: nat,
    parked: bool,
    wakeups: nat)

  function Empty(): Sys {
    Sys([], [], map[], Lifetime(0, 0, false), Open, 0, false, 0)
  }

  /** `limit` is the capacity of the one limiter every call uses, if there is such a one;
      `endless` says that the grace period is infinite. */
  datatype Setup = Setup(config: Config, limit: Option<nat>, endless: bool)

  datatype Step =
    | Enter(t: nat, job: Payload)
    | Pop(t: nat) | Make(t: nat) | StartOk(t: nat) | StartFails(t: nat)
    | Begin(t: nat) | BeginUnpicklable(t: nat, exc: Bytes)
    | Inner(w: nat, l: Label)
    | Answer(t: nat) | GiveUp(t: nat)
    | Leave(t: nat)
    | Close
    | Signal | JoinDead | JoinKill | Turnover | Collect

  // ------------------------------------------------------------------- steps

  predicate IsDead(s: Sys, w: nat) {
    w < |s.slots| && s.slots[w].st.worker.Dead?
  }

  function DeadFlags(s: Sys): (f: seq<bool>)
    ensures |f| == |s.cache| && forall i :: 0 <= i < |f| ==> f[i] == IsDead(s, s.cache[i])
  {
    seq(|s.cache|, i requires 0 <= i < |s.cache| => IsDead(s, s.cache[i]))
  }

  /** The cache's prune: drop workers from the left while they are dead. */
  function Pruned(s: Sys): (r: seq<nat>)
    ensures |r| <= |s.cache|
  {
    s.cache[Leading(DeadFlags(s))..]
  }

  predicate In(s: Sys, t: nat) {
    t in s.tasks
  }

  /** A task is in run_sync of a worker which has come to its answer. */
  predicate Answered(s: Sys, t: nat) {
    && In(s, t) && s.tasks[t].phase.Using? && s.tasks[t].phase.w < |s.slots|
    && s.slots[s.tasks[t].phase.w].st.main.Done?
  }

  predicate Can(g: Setup, s: Sys, x: Step) {
    match x
    case Enter(t, _) => !In(s, t) && !s.life.waiting && (g.limit.Some? ==> |s.tasks| < g.limit.value)
    case Pop(t) => In(s, t) && s.tasks[t].phase.Choosing? && s.cache != [] && s.cache[|s.cache| - 1] < |s.slots|
    case Make(t) => In(s, t) && s.tasks[t].phase.Choosing? && s.cache == []
    case StartOk(t) => In(s, t) && s.tasks[t].phase.Starting? && s.tasks[t].phase.w < |s.slots|
    case StartFails(t) => In(s, t) && s.tasks[t].phase.Starting? && s.tasks[t].phase.w < |s.slots|
    case Begin(t) =>
      In(s, t) && s.tasks[t].phase.Holding? && s.tasks[t].phase.w < |s.slots|
      && CallCan(g.config, s.slots[s.tasks[t].phase.w].st, Submit(s.tasks[t].job))
    case BeginUnpicklable(t, exc) =>
      In(s, t) && s.tasks[t].phase.Holding? && s.tasks[t].phase.w < |s.slots|
      && CallCan(g.config, s.slots[s.tasks[t].phase.w].st, SubmitUnpicklable(exc))
    case Inner(w, l) => w < |s.slots| && s.slots[w].started && !l.Calls? && Enabled(g.config, s.slots[w].st, l)
    case Answer(t) => Answered(s, t)
    case GiveUp(t) => Answered(s, t) && s.slots[s.tasks[t].phase.w].st.main.answer.Retry?
    case Leave(t) => In(s, t) && s.tasks[t].phase.Departing?
    case Close => s.closer.Open? && !s.life.waiting
    case Signal =>
      s.closer.Signalling? && s.closer.k < |s.cache| && s.cache[s.closer.k] < |s.slots|
      && CallCan(g.config, s.slots[s.cache[s.closer.k]].st, Shutdown)
    case JoinDead => s.closer.Joining? && s.closer.k < |s.cache| && IsDead(s, s.cache[s.closer.k])
    case JoinKill =>
      !g.endless && s.closer.Joining? && s.closer.k < |s.cache| && s.cache[s.closer.k] < |s.slots|
      && !IsDead(s, s.cache[s.closer.k]) && CallCan(g.config, s.slots[s.cache[s.closer.k]].st, ShutKill)
    case Turnover => (s.closer.Signalling? || s.closer.Joining?) && s.closer.k == |s.cache|
    case Collect =>
      s.closer.Collecting?
      && forall j :: 0 <= j < |s.cache| ==> s.cache[j] < |s.slots| && (s.slots[s.cache[j]].st.killed ==> IsDead(s, s.cache[j]))
  }

  function SetPhase(s: Sys, t: nat, phase: Phase): Sys
    requires In(s, t)
  {
    s.(tasks := s.tasks[t := s.tasks[t].(phase := phase)])
  }

  function SetState(s: Sys, w: nat, st: State): Sys
    requires w < |s.slots|
  {
    s.(slots := s.slots[w := s.slots[w].(st := st)])
  }

  function SetOwner(s: Sys, w: nat, owner: Owner): Sys
    requires w < |s.slots|
  {
    s.(slots := s.slots[w := s.slots[w].(owner := owner)])
  }

  function Max(a: nat, b: nat): nat {
    if a < b then b else a
  }

  function Admit(s: Sys, t: nat, job: Payload): Sys {
    var tasks := s.tasks[t := Task(job, Choosing, 0, None)];
    s.(tasks := tasks, life := s.life.Entered(), cache := Pruned(s), peak := Max(s.peak, |tasks|))
  }

  function TakeLast(s: Sys, t: nat): Sys
    requires In(s, t) && s.cache != [] && s.cache[|s.cache| - 1] < |s.slots|
  {
    var n := |s.cache| - 1;
    SetOwner(SetPhase(s, t, Holding(s.cache[n])), s.cache[n], Held(t)).(cache := s.cache[..n])
  }

  function Create(s: Sys, t: nat): Sys
    requires In(s, t)
  {
    SetPhase(s, t, Starting(|s.slots|)).(slots := s.slots + [Slot(Fresh(), false, Held(t))])
  }

  /** What the retry loop does with an answer. */
  function After(a: Answer): Phase {
    match a
    case Delivered(o) => Departing(Got(o))
    case Unpicklable(exc) => Departing(NotPickled(exc))
    case Retry => Choosing
    case Raised(exc) => Departing(Failed(FromWorker(exc)))
  }

  function Settle(g: Setup, s: Sys, t: nat, phase: Phase): Sys
    requires Answered(s, t)
  {
    var w := s.tasks[t].phase.w;
    var st := s.slots[w].st;
    var keep := st.main.answer.Delivered? || st.main.answer.Unpicklable?;
    s.(
      slots := s.slots[w := s.slots[w].(st := if keep then st.(main := Idle) else st, owner := if keep then Cached else Gone)],
      cache := if keep then s.cache + [w] else s.cache,
      tasks := s.tasks[t := s.tasks[t].(phase := phase, ran := s.tasks[t].ran + st.entries, made := st.made)])
  }

  function Depart(s: Sys, t: nat): Sys {
    s.(
      tasks := s.tasks - {t},
      life := s.life.Exited(),
      closer := if s.life.Wakes() then Signalling(0) else s.closer,
      wakeups := s.wakeups + if s.life.Wakes() then 1 else 0)
  }

  function BeginClose(s: Sys): Sys {
    var idle := s.life.Running() == 0;
    s.(life := s.life.Closing(), closer := if idle then Signalling(0) else Parked, parked := !idle)
  }

  function Do(g: Setup, s: Sys, x: Step): Sys
    requires Can(g, s, x)
  {
    match x
    case Enter(t, job) => Admit(s, t, job)
    case Pop(t) => TakeLast(s, t)
    case Make(t) => Create(s, t)
    case StartOk(t) =>
      var w := s.tasks[t].phase.w;
      SetPhase(s, t, Holding(w)).(slots := s.slots[w := s.slots[w].(started := true)])
    case StartFails(t) => SetOwner(SetPhase(s, t, Departing(Failed(NotStarted))), s.tasks[t].phase.w, Gone)
    case Begin(t) =>
      var w := s.tasks[t].phase.w;
      SetState(SetPhase(s, t, Using(w)), w, CallDo(g.config, s.slots[w].st, Submit(s.tasks[t].job)))
    case BeginUnpicklable(t, exc) =>
      var w := s.tasks[t].phase.w;
      SetState(SetPhase(s, t, Using(w)), w, CallDo(g.config, s.slots[w].st, SubmitUnpicklable(exc)))
    case Inner(w, l) => SetState(s, w, Apply(g.config, s.slots[w].st, l))
    case Answer(t) => Settle(g, s, t, After(s.slots[s.tasks[t].phase.w].st.main.answer))
    case GiveUp(t) => Settle(g, s, t, Departing(Failed(GaveUp)))
    case Leave(t) => Depart(s, t)
    case Close => BeginClose(s)
    case Signal =>
      var w := s.cache[s.closer.k];
      SetState(s, w, CallDo(g.config, s.slots[w].st, Shutdown)).(closer := Signalling(s.closer.k + 1))
    case JoinDead =>
      var bad := s.slots[s.cache[s.closer.k]].st.worker.code != 0;
      s.(closer := Joining(s.closer.k + 1, s.closer.bad || bad))
    case JoinKill =>
      var w := s.cache[s.closer.k];
      SetState(s, w, CallDo(g.config, s.slots[w].st, ShutKill)).(closer := Joining(s.closer.k + 1, true))
    case Turnover => s.(closer := if s.closer.Signalling? then Joining(0, false) else Collecting(s.closer.bad))
    case Collect => s.(closer := Closed(s.closer.bad))
  }

  // --------------------------------------------------------------- invariant

  predicate Holds(p: Phase) {
    p.Starting? || p.Holding? || p.Using?
  }

  /** All tasks that hold a worker. */
  function Holders(tasks: map<nat, Task>): set<nat> {
    set t | t in tasks && Holds(tasks[t].phase)
  }

  /** A worker is where its owner says. */
  ghost predicate SlotInv(slot: Slot, i: nat, cache: seq<nat>, tasks: map<nat, Task>) {
    match slot.owner
    case Cached => slot.started && Unused(slot.st) && (i in cache || slot.st.worker.Dead?)
    case Held(t) => t in tasks && Holds(tasks[t].phase) && tasks[t].phase.w == i
    case Gone => Unused(slot.st) && (!slot.started || slot.st.worker.Dead?)
  }

  ghost predicate SlotsInv(slots: seq<Slot>, cache: seq<nat>, tasks: map<nat, Task>) {
    forall i :: 0 <= i < |slots| ==> SlotInv(slots[i], i, cache, tasks)
  }

  /** What a task holds is its own, and its history is that of its job. */
  ghost predicate TaskInv(task: Task, t: nat, slots: seq<Slot>) {
    && (Holds(task.phase) ==>
          && task.phase.w < |slots|
          && var slot := slots[task.phase.w];
             && slot.owner == Held(t)
             && slot.started == !task.phase.Starting?
             && (task.phase.Starting? ==> slot.st == Fresh())
             && (task.phase.Holding? ==> slot.st.main.Idle?)
             && (task.phase.Using? ==> InUse(slot.st, task.job)))
    && (!task.phase.Departing? ==> task.ran == 0)
    && (task.phase.Departing? ==>
          match task.phase.result
          case Got(o) => task.ran == 1 && task.made == Some(o)
          case NotPickled(_) => task.ran == 0
          case Failed(_) => task.ran <= 1)
  }

  /** The worker is busy with, or has just answered, a submission of this job. */
  predicate InUse(st: State, job: Payload) {
    (Busy(st.main) && st.job == job) || (st.main.Done? && (st.main.answer.Unpicklable? || st.job == job))
  }

  ghost predicate TasksInv(slots: seq<Slot>, tasks: map<nat, Task>) {
    forall t :: t in tasks ==> TaskInv(tasks[t], t, slots)
  }

  predicate Shutting(c: Closer) {
    !c.Open? && !c.Parked?
  }

  /** How many cached workers have had their job pipe closed, and how many were joined. */
  function Signalled(c: Closer, n: nat): nat {
    match c
    case Open => 0
    case Parked => 0
    case Signalling(k) => k
    case _ => n
  }

  function Joined(c: Closer, n: nat): nat {
    match c
    case Joining(k, _) => k
    case Collecting(_) => n
    case Closed(_) => n
    case _ => 0
  }

  predicate BadSoFar(c: Closer) {
    match c
    case Joining(_, bad) => bad
    case Collecting(bad) => bad
    case Closed(raised) => raised
    case _ => false
  }

  /** A cached worker is idle, or shut once it has been signalled; nobody kills it before it
      is joined, or at all if nothing goes wrong; once it has been joined it is dead or doomed, and cleanly dead unless something went wrong. */
  ghost predicate CachedInv(slot: Slot, j: nat, n: nat, closer: Closer) {
    && slot.owner.Cached?
    && (if j < Signalled(closer, n) then slot.st.main.Shut? else slot.st.main.Idle?)
    && (Joined(closer, n) <= j || !BadSoFar(closer) ==> !slot.st.killed)
    && (j < Joined(closer, n) ==> slot.st.worker.Dead? || (slot.st.killed && BadSoFar(closer)))
    && (j < Joined(closer, n) && !BadSoFar(closer) ==> slot.st.worker.Dead? && slot.st.worker.code == 0)
    && (closer.Closed? ==> slot.st.worker.Dead?)
  }

  ghost predicate CacheInv(slots: seq<Slot>, cache: seq<nat>, closer: Closer) {
    && (forall j :: 0 <= j < |cache| ==> cache[j] < |slots| && CachedInv(slots[cache[j]], j, |cache|, closer))
    && Distinct(cache)
  }

  predicate Distinct(cache: seq<nat>) {
    forall j, k :: 0 <= j < k < |cache| ==> cache[j] != cache[k]
  }

  ghost predicate CountInv(g: Setup, s: Sys) {
    && s.life.Running() == |s.tasks| <= s.peak
    && |s.cache| + |Holders(s.tasks)| <= s.peak
    && (g.limit.Some? ==> s.peak <= g.limit.value)
  }

  ghost predicate CloserInv(s: Sys) {
    && s.life.waiting == !s.closer.Open?
    && (s.closer.Parked? ==> s.tasks != map[])
    && (Shutting(s.closer) ==> s.tasks == map[])
    && (s.closer.Signalling? || s.closer.Joining? ==> s.closer.k <= |s.cache|)
    && s.wakeups == (if s.parked && Shutting(s.closer) then 1 else 0)
    && (s.closer.Open? ==> !s.parked)
    && (s.closer.Parked? ==> s.parked)
  }

  /** Who holds what. */
  ghost predicate Structure(s: Sys) {
    && SlotsInv(s.slots, s.cache, s.tasks)
    && TasksInv(s.slots, s.tasks)
    && CacheInv(s.slots, s.cache, s.closer)
    && CloserInv(s)
  }
}
