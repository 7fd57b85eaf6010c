/** A run in which pruning leaves a dead worker in the cache. */
module SystemExamples {
  import opened Options
  import opened Protocol
  import opened Lifetime
  import opened Pruning
  import opened System
  import opened SystemResults
  import opened SystemTermination

  lemma Arrive(g: Setup, s: Sys, t: nat) returns (r: Sys)
    requires Reachable(g, s) && !In(s, t) && !s.life.waiting && s.cache == []
    requires g.limit.Some? ==> |s.tasks| < g.limit.value
    ensures Reachable(g, r) && !r.life.waiting && r.cache == [] && r.slots == s.slots
    ensures r.tasks == s.tasks[t := Task([], Choosing, 0, None)]
    ensures r.life == s.life.Entered() && r.closer == s.closer
  {
    StaysReachable(g, s, Enter(t, []));
    r := Do(g, s, Enter(t, []));
  }

  lemma MakeOne(g: Setup, s: Sys, t: nat) returns (r: Sys)
    requires Reachable(g, s) && In(s, t) && s.tasks[t].phase.Choosing? && s.cache == []
    ensures Reachable(g, r) && r == Create(s, t)
  {
    StaysReachable(g, s, Make(t));
    r := Do(g, s, Make(t));
  }

  lemma StartOne(g: Setup, s: Sys, t: nat, w: nat) returns (r: Sys)
    requires Reachable(g, s) && In(s, t) && s.tasks[t].phase == Starting(w) && w < |s.slots|
    ensures Reachable(g, r)
    ensures r == SetPhase(s, t, Holding(w)).(slots := s.slots[w := s.slots[w].(started := true)])
  {
    StaysReachable(g, s, StartOk(t));
    r := Do(g, s, StartOk(t));
  }

  /** Task t enters, finds the cache empty and makes a worker. */
  lemma Hire(g: Setup, s: Sys, t: nat) returns (r: Sys)
    requires Reachable(g, s) && !In(s, t) && !s.life.waiting && s.cache == []
    requires g.limit.Some? ==> |s.tasks| < g.limit.value
    ensures Reachable(g, r) && !r.life.waiting && r.cache == []
    ensures r.slots == s.slots + [Slot(Fresh(), true, Held(t))]
    ensures r.tasks == s.tasks[t := Task([], Holding(|s.slots|), 0, None)]
    ensures r.life == s.life.Entered() && r.closer == s.closer
  {
    var a := Arrive(g, s, t);
    var b := MakeOne(g, a, t);
    r := StartOne(g, b, t, |s.slots|);
    var held := Slot(Fresh(), false, Held(t));
    LastSlot(s.slots, held, held.(started := true));
    Overwritten(s.tasks, t, a.tasks[t], b.tasks[t]);
    Overwritten(s.tasks, t, b.tasks[t], r.tasks[t]);
  }

  lemma LastSlot(slots: seq<Slot>, a: Slot, b: Slot)
    ensures (slots + [a])[|slots| := b] == slots + [b]
  {
  }

  lemma Overwritten(tasks: map<nat, Task>, t: nat, a: Task, b: Task)
    ensures tasks[t := a][t := b] == tasks[t := b]
  {
  }

  lemma BeginOne(g: Setup, s: Sys, t: nat, w: nat) returns (r: Sys)
    requires Reachable(g, s) && In(s, t) && s.tasks[t].phase == Holding(w)
    requires w < |s.slots| && s.slots[w].st.main.Idle?
    ensures Reachable(g, r) && r.tasks == s.tasks[t := s.tasks[t].(phase := Using(w))] && r.cache == s.cache
    ensures r.slots == s.slots[w := s.slots[w].(st := CallDo(g.config, s.slots[w].st, SubmitUnpicklable([])))]
    ensures r.life == s.life && r.closer == s.closer
  {
    StaysReachable(g, s, BeginUnpicklable(t, []));
    r := Do(g, s, BeginUnpicklable(t, []));
  }

  lemma AnswerOne(g: Setup, s: Sys, t: nat) returns (r: Sys)
    requires Reachable(g, s) && Answered(s, t)
    ensures Reachable(g, r) && r == Settle(g, s, t, After(s.slots[s.tasks[t].phase.w].st.main.answer))
  {
    StaysReachable(g, s, Answer(t));
    r := Do(g, s, Answer(t));
  }

  /** Its job turns out not to pickle, and the worker goes into the cache unused. */
  lemma Restore(g: Setup, s: Sys, t: nat, w: nat) returns (r: Sys)
    requires Reachable(g, s) && In(s, t) && s.tasks[t].phase == Holding(w)
    requires w < |s.slots| && s.slots[w].st.main.Idle?
    ensures Reachable(g, r) && r.cache == s.cache + [w] && |r.slots| == |s.slots|
    ensures forall i :: 0 <= i < |s.slots| ==>
              r.slots[i].st.worker == s.slots[i].st.worker && r.slots[i].started == s.slots[i].started
    ensures forall i :: 0 <= i < |s.slots| && i != w ==> r.slots[i] == s.slots[i]
    ensures forall u :: In(s, u) && u != t ==> In(r, u) && r.tasks[u] == s.tasks[u]
    ensures r.tasks.Keys == s.tasks.Keys && r.tasks[t].phase.Departing?
    ensures r.slots[w].st.main.Idle? && r.life == s.life && r.closer == s.closer
  {
    r := BeginOne(g, s, t, w);
    r := AnswerOne(g, r, t);
  }

  lemma Dies(g: Setup, s: Sys, w: nat) returns (r: Sys)
    requires Reachable(g, s) && w < |s.slots| && s.slots[w].started && !s.slots[w].st.worker.Dead?
    ensures Reachable(g, r) && r.cache == s.cache && |r.slots| == |s.slots| && IsDead(r, w)
    ensures forall i :: 0 <= i < |s.slots| && i != w ==> r.slots[i] == s.slots[i]
  {
    var x := Inner(w, Worlds(Perish(1)));
    StaysReachable(g, s, x);
    r := Do(g, s, x);
  }

  lemma TwoHired(g: Setup) returns (s: Sys)
    requires g.limit.Some? ==> g.limit.value >= 2
    ensures Reachable(g, s) && s.cache == []
    ensures s.slots == [Slot(Fresh(), true, Held(0)), Slot(Fresh(), true, Held(1))]
    ensures In(s, 0) && In(s, 1) && s.tasks[0].phase == Holding(0) && s.tasks[1].phase == Holding(1)
  {
    s := Empty();
    assert Ran(g, s, []) == s;
    s := Hire(g, s, 0);
    s := Hire(g, s, 1);
  }

  lemma TwoCached(g: Setup) returns (s: Sys)
    requires g.limit.Some? ==> g.limit.value >= 2
    ensures Reachable(g, s) && s.cache == [0, 1] && |s.slots| == 2
    ensures s.slots[0].st.worker.Init? && s.slots[1].st.worker.Init? && s.slots[1].started
  {
    s := TwoHired(g);
    s := Restore(g, s, 0, 0);
    s := Restore(g, s, 1, 1);
  }

  /** Two workers are cached and the right one dies: a prune drops neither, so that two idle
      workers are reported where one is alive. */
  lemma DeadOneStays(g: Setup) returns (s: Sys)
    requires g.limit.Some? ==> g.limit.value >= 2
    ensures Reachable(g, s) && Pruned(s) == s.cache && |s.cache| == 2 && Living(DeadFlags(s)) == 1
  {
    s := TwoCached(g);
    s := Dies(g, s, 1);
    assert DeadFlags(s) == [false, true];
    assert Living([true]) == 0;
  }

  /** A worker is cached while still in init, its task leaves and the context is closed: with
      an infinite grace period the closer waits for init, and nothing it or the worker could
      do by themselves is possible. */
  lemma HangingInit(g: Setup) returns (s: Sys)
    requires g.endless && (g.limit.Some? ==> g.limit.value >= 1)
    ensures Reachable(g, s) && s.tasks == map[] && s.closer == Joining(0, false) && Stuck(g, s)
  {
    s := OneCached(g);
    s := LeaveOne(g, s);
    s := ShutDown(g, s);
  }

  lemma LeaveOne(g: Setup, s: Sys) returns (r: Sys)
    requires Reachable(g, s) && s.tasks.Keys == {0} && s.tasks[0].phase.Departing?
    requires s.closer.Open? && s.life == Lifetime(1, 0, false)
    ensures Reachable(g, r) && r.tasks == map[] && r.slots == s.slots && r.cache == s.cache
    ensures r.closer.Open? && r.life == Lifetime(1, 1, false)
  {
    StaysReachable(g, s, Leave(0));
    r := Do(g, s, Leave(0));
    assert r.tasks.Keys == {};
  }

  lemma OneCached(g: Setup) returns (s: Sys)
    requires g.limit.Some? ==> g.limit.value >= 1
    ensures Reachable(g, s) && s.cache == [0] && |s.slots| == 1 && s.tasks.Keys == {0} && s.tasks[0].phase.Departing?
    ensures s.slots[0].st.main.Idle? && s.slots[0].st.worker.Init? && s.closer.Open? && s.life == Lifetime(1, 0, false)
  {
    s := Empty();
    assert Ran(g, s, []) == s;
    s := Hire(g, s, 0);
    s := Restore(g, s, 0, 0);
  }

  lemma ShutDown(g: Setup, s: Sys) returns (r: Sys)
    requires Reachable(g, s) && s.tasks == map[] && s.closer.Open? && !s.life.waiting && s.life.Running() == 0
    requires s.cache == [0] && |s.slots| == 1 && s.slots[0].st.main.Idle?
    ensures Reachable(g, r) && r.tasks == map[] && r.closer == Joining(0, false) && r.cache == [0]
    ensures |r.slots| == 1 && r.slots[0].st.worker == s.slots[0].st.worker
  {
    r := s;
    StaysReachable(g, r, Close); r := Do(g, r, Close);
    StaysReachable(g, r, Signal); r := Do(g, r, Signal);
    StaysReachable(g, r, Turnover); r := Do(g, r, Turnover);
  }
}
