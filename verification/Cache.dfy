/**
 The cache of idle worker processes: pruning the dead from its left end, and shutting all of
 it down within one grace period. The clock is exact: it moves only while something waits.
 */
module Cache {
  import opened Options
  import opened Pruning
  import opened Timing

  class Clock {
    var now: real

    constructor (now: real)
      ensures this.now == now
    {
      this.now := now;
    }
  }

  function Earlier(a: Option<real>, b: Option<real>): Option<real> {
    if a.None? then b
    else if b.None? then a
    else if a.value <= b.value then a else b
  }

  type Duration = d: real | d >= 0.0

  /** A worker process as its parent sees it: when it exits, unless killed first, and with
      which code; how long it takes to exit once its job pipe is closed (if it ever does),
      and to die once killed. */
  class WorkerProc {
    const obeysIn: Option<real>
    const diesIn: Duration
    var sendOpen: bool
    var exitAt: Option<real>
    var code: int
    var killed: bool

    constructor (obeysIn: Option<real>, diesIn: Duration, exitAt: Option<real>, code: int)
      ensures this.obeysIn == obeysIn && this.diesIn == diesIn && this.exitAt == exitAt && this.code == code
      ensures sendOpen && !killed
    {
      this.obeysIn, this.diesIn, this.exitAt, this.code := obeysIn, diesIn, exitAt, code;
      sendOpen, killed := true, false;
    }

    /** When it will exit by itself, if shutdown is signalled at `now`. */
    function NaturalExit(now: real): (r: Option<real>)
      reads this
      ensures r.Some? <==> exitAt.Some? || (sendOpen && obeysIn.Some?)
      ensures r.Some? ==> (exitAt.Some? ==> r.value <= exitAt.value)
      ensures r.Some? ==> (sendOpen && obeysIn.Some? ==> r.value <= now + obeysIn.value)
      ensures r == exitAt || (sendOpen && obeysIn.Some? && r == Some(now + obeysIn.value))
    {
      if sendOpen && obeysIn.Some? then Earlier(exitAt, Some(now + obeysIn.value)) else exitAt
    }

    /** proc.exitcode: None while the process is alive. */
    function ExitCode(now: real): Option<int>
      reads this
    {
      if exitAt.Some? && exitAt.value <= now then Some(code) else None
    }

    method Shutdown(now: real)
      modifies this
      ensures exitAt == old(NaturalExit(now))
      ensures !sendOpen && code == old(code) && killed == old(killed)
    {
      exitAt := NaturalExit(now);
      sendOpen := false;
    }

    /** SIGKILL always ends the process, sooner or later. */
    method Kill(now: real)
      requires ExitCode(now) == None
      modifies this
      ensures exitAt == Some(now + diesIn) && code == -9 && killed
      ensures sendOpen == old(sendOpen)
    {
      exitAt, code, killed := Some(now + diesIn), -9, true;
    }
  }

  /** What a shutdown does, in order; i is the worker's place in the cache. */
  datatype Event =
    | Signal(i: nat, at: real)
    | Join(i: nat, at: real, timeout: real)
    | Kill(i: nat, at: real)
    | JoinKilled(i: nat, at: real)

  datatype Fate = Clean | Unclean | Killed

  /** A worker's fate depends only on when it would exit by itself and on the one deadline
      all share, not on its place in the cache. */
  function FateOf(exit: Option<real>, code: int, start: real, grace: Timeout): Fate {
    if exit.None? || (grace.Finite? && exit.value > start + grace.t) then Killed
    else if code != 0 then Unclean
    else Clean
  }

  /** The places of this fate, in order. */
  function Places(fates: seq<Fate>, f: Fate): seq<nat> {
    if fates == [] then []
    else
      var n := |fates| - 1;
      Places(fates[..n], f) + if fates[n] == f then [n] else []
  }

  predicate Ascending(p: seq<nat>) {
    forall a, b :: 0 <= a < b < |p| ==> p[a] < p[b]
  }

  lemma {:induction false} PlacesExact(fates: seq<Fate>, f: Fate)
    ensures forall i :: i in Places(fates, f) <==> 0 <= i < |fates| && fates[i] == f
  {
    if fates != [] {
      PlacesExact(fates[..|fates| - 1], f);
    }
  }

  lemma {:induction false} PlacesAscend(fates: seq<Fate>, f: Fate)
    ensures Ascending(Places(fates, f))
  {
    if fates != [] {
      var before := Places(fates[..|fates| - 1], f);
      PlacesExact(fates[..|fates| - 1], f);
      PlacesAscend(fates[..|fates| - 1], f);
      assert forall a :: 0 <= a < |before| ==> before[a] in before;
    }
  }

  lemma PlacesNext(fates: seq<Fate>, i: nat, f: Fate)
    requires i < |fates|
    ensures Places(fates[..i + 1], f) == Places(fates[..i], f) + if fates[i] == f then [i] else []
  {
    assert fates[..i + 1][..i] == fates[..i];
  }

  function Signals(n: nat, at: real): seq<Event> {
    seq(n, i requires 0 <= i < n => Signal(i, at))
  }

  /** Normal, or BrokenWorkerProcessError with the places of the unclean and the killed; or
      still joining the worker at this place. */
  datatype ShutdownResult = Normal | Raised(unclean: seq<nat>, killed: seq<nat>) | StillJoining(i: nat)

  function Verdict(fates: seq<Fate>): ShutdownResult {
    var unclean, killed := Places(fates, Unclean), Places(fates, Fate.Killed);
    if unclean == [] && killed == [] then Normal else Raised(unclean, killed)
  }

  predicate InTime(exit: Option<real>, start: real, grace: Timeout) {
    exit.Some? && (grace.Finite? ==> exit.value <= start + grace.t)
  }

  function Deadline(start: real, grace: Timeout): Option<real> {
    if grace.Forever? then None else Some(start + grace.t)
  }

  /** An event of the joining loop: joins ask for no more than MAX_TIMEOUT, never for
      exactly 0.0, and none begins after the deadline; kills happen at the deadline, not
      before. */
  predicate Timely(e: Event, start: real, grace: Timeout) {
    match e
    case Join(_, at, timeout) => timeout <= MAX_TIMEOUT && timeout != 0.0 && start <= at && (grace.Finite? ==> at <= start + grace.t)
    case Kill(_, at) => Deadline(start, grace) == Some(at)
    case _ => false
  }

  ghost predicate TimelyFrom(log: seq<Event>, from: nat, start: real, grace: Timeout) {
    forall k :: from <= k < |log| ==> Timely(log[k], start, grace)
  }

  /** What is logged from `from` on: every one of the n workers is signalled, then come the
      joining loop and the joins of the killed. */
  ghost predicate Orderly(log: seq<Event>, from: nat, n: nat, start: real, grace: Timeout) {
    && from + n <= |log|
    && (forall i :: 0 <= i < n ==> log[from + i] == Signal(i, start))
    && (forall k :: from + n <= k < |log| ==> Timely(log[k], start, grace) || log[k].JoinKilled?)
  }

  /** Places of a cache of n workers, each once and in order. */
  predicate Listed(p: seq<nat>, n: nat) {
    Ascending(p) && forall i :: i in p ==> i < n
  }

  lemma VerdictTells(fates: seq<Fate>)
    ensures var r := Verdict(fates);
            && (forall i :: 0 <= i < |fates| ==> ((r.Raised? && i in r.unclean) <==> fates[i].Unclean?))
            && (forall i :: 0 <= i < |fates| ==> ((r.Raised? && i in r.killed) <==> fates[i].Killed?))
            && (r.Raised? ==> Listed(r.unclean, |fates|) && Listed(r.killed, |fates|))
            && !r.StillJoining?
  {
    PlacesExact(fates, Unclean);
    PlacesExact(fates, Fate.Killed);
    PlacesAscend(fates, Unclean);
    PlacesAscend(fates, Fate.Killed);
  }

  class WorkerProcCache {
    var deque: seq<WorkerProc>
    const clock: Clock
    var log: seq<Event>

    constructor (clock: Clock)
      ensures this.clock == clock && deque == [] && log == []
    {
      this.clock, deque, log := clock, [], [];
    }

    function Dead(): (d: seq<bool>)
      reads this, deque, clock
      ensures |d| == |deque|
      ensures forall i :: 0 <= i < |d| ==> d[i] == deque[i].ExitCode(clock.now).Some?
    {
      seq(|deque|, i requires 0 <= i < |deque| reads this, deque, clock => deque[i].ExitCode(clock.now).Some?)
    }

    /** Drops the dead at the left end and nothing else. */
    method Prune()
      modifies this
      ensures deque == old(deque)[Leading(old(Dead()))..] && log == old(log)
    {
      ghost var dead := Dead();
      ghost var n := 0;
      while true
        invariant n <= |old(deque)| && deque == old(deque)[n..] && log == old(log)
        invariant forall i :: 0 <= i < n ==> dead[i]
        decreases |deque|
      {
        if deque == [] {
          LeadingIs(dead, n);
          return;
        }
        var worker := deque[0];
        deque := deque[1..];
        if worker.ExitCode(clock.now).None? {
          deque := [worker] + deque;
          assert worker == old(deque)[n];
          LeadingIs(dead, n);
          return;
        }
        n := n + 1;
      }
    }

    /** What a shutdown begun at `start` has to report of worker i: unclean if it exits by
        itself in time with a code other than 0, killed if it does not exit in time. */
    ghost predicate Reports(r: ShutdownResult, i: nat, start: real, grace: Timeout)
      requires i < |deque|
      reads this, deque
    {
      var exit := deque[i].NaturalExit(start);
      && ((r.Raised? && i in r.unclean) <==> InTime(exit, start, grace) && deque[i].code != 0)
      && ((r.Raised? && i in r.killed) <==> !InTime(exit, start, grace))
    }

    ghost predicate Valid()
      reads this, deque
    {
      && Distinct()
      && (forall i :: 0 <= i < |deque| ==> !deque[i].killed)
    }

    /** Each worker's fate if shutdown begins at `start`. */
    ghost function Fates(start: real, grace: Timeout): (f: seq<Fate>)
      reads this, deque
      ensures |f| == |deque|
      ensures forall i :: 0 <= i < |f| ==> f[i] == FateOf(deque[i].NaturalExit(start), deque[i].code, start, grace)
    {
      seq(|deque|, i requires 0 <= i < |deque| reads this, deque =>
        FateOf(deque[i].NaturalExit(start), deque[i].code, start, grace))
    }

    /** The first loop: closes every job pipe. */
    method SignalAll()
      requires Valid()
      modifies this`log, deque
      ensures Valid()
      ensures forall i :: 0 <= i < |deque| ==>
                && deque[i].exitAt == old(deque[i].NaturalExit(clock.now)) && !deque[i].sendOpen
                && deque[i].code == old(deque[i].code)
      ensures log == old(log) + Signals(|deque|, clock.now)
    {
      for i := 0 to |deque|
        invariant Valid() && deque == old(deque)
        invariant forall j :: 0 <= j < i ==>
                    && deque[j].exitAt == old(deque[j].NaturalExit(clock.now)) && !deque[j].sendOpen
                    && deque[j].code == old(deque[j].code)
        invariant forall j :: i <= j < |deque| ==> unchanged(deque[j])
        invariant log == old(log) + Signals(i, clock.now)
      {
        deque[i].Shutdown(clock.now);
        log := log + [Signal(i, clock.now)];
      }
    }

    /** proc.join(timeout) */
    method JoinFor(i: nat, timeout: real)
      requires i < |deque|
      modifies this`log, clock
      ensures clock.now == WaitFor(old(clock.now), deque[i].exitAt, timeout).1
      ensures log == old(log) + [Join(i, old(clock.now), timeout)]
    {
      log := log + [Join(i, clock.now, timeout)];
      clock.now := WaitFor(clock.now, deque[i].exitAt, timeout).1;
    }

    /** The body of the second loop up to the check of the exit code: waits for one worker
        until it exits or the shared deadline has come. It is watched for at most `patience`
        long joins; None if it is still joining then. */
    method JoinOne(i: nat, start: real, grace: Timeout, patience: nat) returns (r: Option<bool>)
      requires i < |deque| && start <= clock.now && (grace.Finite? ==> clock.now <= start + grace.t)
      modifies this`log, clock
      ensures old(clock.now) <= clock.now && (grace.Finite? ==> clock.now <= start + grace.t)
      ensures r.Some? ==>
                && (r.value <==> deque[i].ExitCode(clock.now).Some?)
                && (r.value <==> deque[i].exitAt.Some? && (grace.Finite? ==> deque[i].exitAt.value <= start + grace.t))
                && Some(clock.now) == if r.value then Some(Later(old(clock.now), deque[i].exitAt.value)) else Deadline(start, grace)
      ensures r.None? ==> clock.now == old(clock.now) + patience as real * MAX_TIMEOUT
      ensures r.None? && patience > 0 ==> deque[i].ExitCode(clock.now).None?
      ensures old(log) <= log && TimelyFrom(log, |old(log)|, start, grace)
    {
      var left := grace.Minus(clock.now - start);
      var exited := false;
      var joins := 0;
      while left.Exceeds(MAX_TIMEOUT) && !exited
        invariant 0 <= joins <= patience
        invariant !exited ==> left == grace.Minus(clock.now - start)
        invariant !exited ==> clock.now == old(clock.now) + joins as real * MAX_TIMEOUT
        invariant start <= clock.now && old(clock.now) <= clock.now
        invariant grace.Finite? ==> clock.now <= start + grace.t
        invariant exited ==> deque[i].exitAt.Some? && clock.now == Later(old(clock.now), deque[i].exitAt.value)
        invariant !exited && joins > 0 ==> deque[i].ExitCode(clock.now).None?
        invariant old(log) <= log && TimelyFrom(log, |old(log)|, start, grace)
        decreases !exited, patience - joins
      {
        if joins == patience {
          return None;
        }
        joins := joins + 1;
        JoinFor(i, MAX_TIMEOUT);
        if deque[i].ExitCode(clock.now).Some? {
          exited := true;
        } else {
          left := grace.Minus(clock.now - start);
        }
      }
      if !exited {
        JoinFor(i, if left.t == 0.0 then -0.1 else left.t);
      }
      r := Some(deque[i].ExitCode(clock.now).Some?);
    }

    /** What the second loop leaves of a worker of this fate: dead of itself with a code to
        match, or killed. */
    predicate Settled(i: nat, fate: Fate)
      requires i < |deque|
      reads this, deque, clock
    {
      var w := deque[i];
      match fate
      case Clean => !w.killed && w.ExitCode(clock.now) == Some(0)
      case Unclean => !w.killed && w.ExitCode(clock.now).Some? && w.code != 0
      case Killed => w.killed && w.code == -9 && w.exitAt.Some?
    }

    /** A signalled worker that is still to be joined, and its fate. */
    predicate Awaiting(i: nat, fate: Fate, start: real, grace: Timeout)
      requires i < |deque|
      reads this, deque
    {
      var w := deque[i];
      !w.killed && fate == FateOf(w.exitAt, w.code, start, grace)
    }

    /** The join of this worker, by itself, has been going on for this many MAX_TIMEOUTs. */
    predicate Outstays(i: nat, since: real, patience: nat)
      reads this, deque, clock
    {
      && i < |deque|
      && since + patience as real * MAX_TIMEOUT <= clock.now
      && (patience > 0 ==> deque[i].ExitCode(clock.now).None?)
    }

    /** The body of the second loop. */
    method SettleOne(i: nat, start: real, grace: Timeout, patience: nat) returns (r: Option<Fate>)
      requires i < |deque| && !deque[i].killed && start <= clock.now
      requires grace.Finite? ==> clock.now <= start + grace.t
      modifies this`log, clock, deque[i]
      ensures old(clock.now) <= clock.now && (grace.Finite? ==> clock.now <= start + grace.t)
      ensures r.Some? ==> r.value == old(FateOf(deque[i].exitAt, deque[i].code, start, grace)) && Settled(i, r.value)
      ensures r.Some? && r.value.Killed? ==> grace.Finite?
      ensures r.None? ==> Outstays(i, start, patience)
      ensures old(log) <= log && TimelyFrom(log, |old(log)|, start, grace)
    {
      var exited := JoinOne(i, start, grace, patience);
      if exited.None? {
        return None;
      }
      if !exited.value {
        log := log + [Event.Kill(i, clock.now)];
        deque[i].Kill(clock.now);
        r := Some(Fate.Killed);
      } else {
        r := Some(if deque[i].code != 0 then Unclean else Clean);
      }
    }

    ghost predicate Distinct()
      reads this
    {
      forall i, j :: 0 <= i < j < |deque| ==> deque[i] != deque[j]
    }

    /** The workers left of place i are settled, the others are waiting. */
    ghost predicate Halfway(i: nat, fates: seq<Fate>, start: real, grace: Timeout)
      reads this, deque, clock
    {
      && |fates| == |deque|
      && (forall j :: 0 <= j < i && j < |deque| ==> Settled(j, fates[j]))
      && (forall j :: i <= j < |deque| ==> Awaiting(j, fates[j], start, grace))
    }

    method SettleNext(i: nat, start: real, grace: Timeout, patience: nat, ghost fates: seq<Fate>)
      returns (r: Option<Fate>)
      requires i < |deque| && Distinct() && Halfway(i, fates, start, grace) && start <= clock.now
      requires grace.Finite? ==> clock.now <= start + grace.t
      modifies this`log, clock, deque[i]
      ensures r.Some? ==> r.value == fates[i] && Halfway(i + 1, fates, start, grace)
      ensures r.Some? && r.value.Killed? ==> grace.Finite?
      ensures r.None? ==> Outstays(i, start, patience)
      ensures old(clock.now) <= clock.now && (grace.Finite? ==> clock.now <= start + grace.t)
      ensures old(log) <= log && TimelyFrom(log, |old(log)|, start, grace)
    {
      assert Awaiting(i, fates[i], start, grace);
      r := SettleOne(i, start, grace, patience);
    }

    /** The second loop: joins every worker in turn and kills those that outlast the
        deadline. */
    method JoinAll(start: real, grace: Timeout, patience: nat, ghost fates: seq<Fate>)
      returns (unclean: seq<nat>, killed: seq<nat>, waiting: Option<nat>)
      requires Valid() && start == clock.now && (grace.Finite? ==> grace.t >= 0.0)
      requires Halfway(0, fates, start, grace)
      modifies this`log, clock, deque
      ensures start <= clock.now && (grace.Finite? ==> clock.now <= start + grace.t)
      ensures waiting.None? ==>
                && unclean == Places(fates, Unclean) && killed == Places(fates, Fate.Killed)
                && (grace.Forever? ==> killed == [])
                && Halfway(|deque|, fates, start, grace)
      ensures waiting.Some? ==> Outstays(waiting.value, start, patience)
      ensures old(log) <= log && TimelyFrom(log, |old(log)|, start, grace)
    {
      unclean, killed, waiting := [], [], None;
      for i := 0 to |deque|
        invariant start <= clock.now && (grace.Finite? ==> clock.now <= start + grace.t)
        invariant Distinct() && Halfway(i, fates, start, grace)
        invariant unclean == Places(fates[..i], Unclean) && killed == Places(fates[..i], Fate.Killed)
        invariant grace.Forever? ==> killed == []
        invariant old(log) <= log && TimelyFrom(log, |old(log)|, start, grace)
      {
        PlacesNext(fates, i, Unclean);
        PlacesNext(fates, i, Fate.Killed);
        var fate := SettleNext(i, start, grace, patience, fates);
        if fate.None? {
          waiting := Some(i);
          return;
        }
        if fate.value.Killed? {
          killed := killed + [i];
        } else if fate.value.Unclean? {
          unclean := unclean + [i];
        }
      }
      assert fates[..|deque|] == fates;
    }

    /** The third loop: joins the killed without a timeout. */
    method CollectKilled(killed: seq<nat>)
      requires forall i :: i in killed ==> i < |deque| && deque[i].exitAt.Some?
      modifies this`log, clock
      ensures old(clock.now) <= clock.now
      ensures forall i :: i in killed ==> deque[i].ExitCode(clock.now).Some?
      ensures forall i :: 0 <= i < |deque| && old(deque[i].ExitCode(clock.now)).Some? ==>
                deque[i].ExitCode(clock.now) == old(deque[i].ExitCode(clock.now))
      ensures old(log) <= log && forall k :: |old(log)| <= k < |log| ==> log[k].JoinKilled?
    {
      assert forall i :: i in killed ==> i < |deque|;
      for k := 0 to |killed|
        invariant old(clock.now) <= clock.now
        invariant forall i :: i in killed[..k] ==> i in killed && deque[i].ExitCode(clock.now).Some?
        invariant old(log) <= log && forall j :: |old(log)| <= j < |log| ==> log[j].JoinKilled?
      {
        var i := killed[k];
        assert i in killed && killed[..k + 1] == killed[..k] + [i];
        log := log + [JoinKilled(i, clock.now)];
        clock.now := Wait(clock.now, deque[i].exitAt, Forever).value.1;
      }
    }

    /** The second and third loops, and the result. */
    method Reap(start: real, grace: Timeout, patience: nat, ghost fates: seq<Fate>) returns (r: ShutdownResult)
      requires Valid() && start == clock.now && (grace.Finite? ==> grace.t >= 0.0)
      requires |fates| == |deque|
      requires forall i :: 0 <= i < |deque| ==> fates[i] == FateOf(deque[i].exitAt, deque[i].code, start, grace)
      modifies this`log, clock, deque
      ensures !r.StillJoining? ==>
                && r == Verdict(fates)
                && (forall i :: 0 <= i < |deque| ==> Settled(i, fates[i]) && deque[i].ExitCode(clock.now).Some?)
                && (grace.Forever? ==> forall i :: 0 <= i < |deque| ==> !fates[i].Killed?)
      ensures r.StillJoining? ==> Outstays(r.i, start, patience) && (grace.Finite? ==> clock.now <= start + grace.t)
      ensures old(log) <= log
      ensures forall k :: |old(log)| <= k < |log| ==> Timely(log[k], start, grace) || log[k].JoinKilled?
    {
      var unclean, killed, waiting := JoinAll(start, grace, patience, fates);
      if waiting.Some? {
        return StillJoining(waiting.value);
      }
      PlacesExact(fates, Fate.Killed);
      r := Normal;
      if unclean != [] || killed != [] {
        CollectKilled(killed);
        r := Raised(unclean, killed);
      }
      forall i | 0 <= i < |deque|
        ensures Settled(i, fates[i]) && deque[i].ExitCode(clock.now).Some?
      {
        if fates[i].Killed? {
          assert i in killed;
        }
      }
    }

    /** Signals every worker, then joins them all within one grace period, killing those
        that do not make it, and in the end leaves none alive. Each worker's join is watched
        for at most `patience` long joins. Only without a deadline can a shutdown still be
        joining however long it is watched; if it ends then, every worker exited by itself. */
    method Shutdown(grace: Timeout, patience: nat) returns (r: ShutdownResult)
      requires Valid() && (grace.Finite? ==> grace.t >= 0.0)
      modifies this`log, clock, deque
      ensures !r.StillJoining? ==>
                && r == Verdict(old(Fates(clock.now, grace)))
                && (forall i :: 0 <= i < |deque| ==>
                      Settled(i, old(Fates(clock.now, grace))[i]) && deque[i].ExitCode(clock.now).Some?)
                && (grace.Forever? ==> forall i :: 0 <= i < |deque| ==> old(deque[i].NaturalExit(clock.now)).Some?)
                && (forall i :: 0 <= i < |deque| ==> old(Reports(r, i, clock.now, grace)))
                && (r.Raised? ==> Listed(r.unclean, |deque|) && Listed(r.killed, |deque|))
      ensures r.StillJoining? ==> Outstays(r.i, old(clock.now), patience)
      ensures grace.Finite? && patience as real * MAX_TIMEOUT > grace.t ==> !r.StillJoining?
      ensures old(log) <= log && Orderly(log, |old(log)|, |deque|, old(clock.now), grace)
    {
      ghost var fates := Fates(clock.now, grace);
      VerdictTells(fates);
      SignalAll();
      r := Reap(clock.now, grace, patience, fates);
    }
  }

  /** The shutdown returns normally exactly when every worker exits by itself in time and
      with code 0. */
  lemma NormalMeansClean(fates: seq<Fate>)
    ensures Verdict(fates).Normal? <==> forall i :: 0 <= i < |fates| ==> fates[i].Clean?
  {
    PlacesExact(fates, Unclean);
    PlacesExact(fates, Fate.Killed);
    var unclean, killed := Places(fates, Unclean), Places(fates, Fate.Killed);
    if Verdict(fates).Normal? {
      forall i | 0 <= i < |fates| ensures fates[i].Clean? {
        assert i !in unclean && i !in killed;
      }
    } else {
      var i := if unclean != [] then unclean[0] else killed[0];
      assert i in unclean || i in killed;
    }
  }

  // ---------------------------------------------------------------- idle expiry

  /** Idle workers with one idle timeout for all, each by the moment it was last put into
      the cache: it is dead once its idle time is up. */
  datatype Idle = Idle(now: real, uses: seq<real>)

  datatype IdleStep = Pass(d: real) | PopRight | AppendRight | PruneLeft

  function Expired(s: Idle, timeout: real): seq<bool> {
    seq(|s.uses|, i requires 0 <= i < |s.uses| => s.now - s.uses[i] >= timeout)
  }

  function IdleDo(s: Idle, x: IdleStep, timeout: real): Idle {
    match x
    case Pass(d) => s.(now := s.now + Later(d, 0.0))
    case PopRight => if s.uses == [] then s else s.(uses := s.uses[..|s.uses| - 1])
    case AppendRight => s.(uses := s.uses + [s.now])
    case PruneLeft => s.(uses := s.uses[Leading(Expired(s, timeout))..])
  }

  function IdleRun(s: Idle, xs: seq<IdleStep>, timeout: real): Idle
    decreases |xs|
  {
    if xs == [] then s else IdleRun(IdleDo(s, xs[0], timeout), xs[1..], timeout)
  }

  ghost predicate LastUsedOrder(s: Idle) {
    && (forall i, j :: 0 <= i < j < |s.uses| ==> s.uses[i] <= s.uses[j])
    && (forall i :: 0 <= i < |s.uses| ==> s.uses[i] <= s.now)
  }

  lemma {:induction false} OrderKept(s: Idle, xs: seq<IdleStep>, timeout: real)
    requires LastUsedOrder(s)
    ensures LastUsedOrder(IdleRun(s, xs, timeout))
    decreases |xs|
  {
    if xs != [] {
      OrderKept(IdleDo(s, xs[0], timeout), xs[1..], timeout);
    }
  }

  /** Whenever the cache is pruned, in any run, exactly the expired workers are dropped, and
      the idle count is that of the living. */
  lemma IdlePruneExact(start: real, xs: seq<IdleStep>, timeout: real)
    ensures var s := IdleRun(Idle(start, []), xs, timeout);
            var dead := Expired(s, timeout);
            && (forall i :: 0 <= i < |s.uses| ==> (i < Leading(dead) <==> s.now - s.uses[i] >= timeout))
            && |s.uses| - Leading(dead) == Living(dead)
  {
    OrderKept(Idle(start, []), xs, timeout);
    var s := IdleRun(Idle(start, []), xs, timeout);
    var dead := Expired(s, timeout);
    assert forall i, j :: 0 <= i < j < |dead| && dead[j] ==> dead[i];
    assert forall i :: 0 <= i < |s.uses| ==> (dead[i] <==> s.now - s.uses[i] >= timeout);
    PruneExact(dead);
  }

  /** A pop takes the worker used last. */
  lemma PopTakesTheLatest(start: real, xs: seq<IdleStep>, timeout: real)
    ensures var s := IdleRun(Idle(start, []), xs, timeout);
            var r := IdleDo(s, PopRight, timeout);
            s.uses != [] ==>
              exists use :: s.uses == r.uses + [use] && forall i :: 0 <= i < |r.uses| ==> r.uses[i] <= use
  {
    OrderKept(Idle(start, []), xs, timeout);
    var s := IdleRun(Idle(start, []), xs, timeout);
    if s.uses != [] {
      assert s.uses == IdleDo(s, PopRight, timeout).uses + [s.uses[|s.uses| - 1]];
    }
  }
}
