/**
 The retry loop of `WorkerContext.run_sync` as one task runs it while no other touches the
 cache or closes the context. Workers are named by number; how each attempt ends is read off
 a script.
 */
module Context {
  import opened Protocol
  import opened Lifetime
  import opened Pruning

  /** How an attempt ends; `cancelled` matters at the checkpoint after a Retry. */
  datatype Attempt = Attempt(answer: Answer, cancelled: bool)

  datatype RunResult = ClosedContext | Leaves(answer: Answer) | GivesUp | StillTrying

  predicate GoesOn(a: Attempt) {
    a.answer.Retry? && !a.cancelled
  }

  predicate Keeps(a: Answer) {
    a.Delivered? || a.Unpicklable?
  }

  /** The number of attempts before the first that ends the loop. */
  function Retries(script: seq<Attempt>): (n: nat)
    ensures n <= |script|
    ensures forall i :: 0 <= i < n ==> GoesOn(script[i])
    ensures n < |script| ==> !GoesOn(script[n])
  {
    if script != [] && GoesOn(script[0]) then 1 + Retries(script[1..]) else 0
  }

  function Attempts(script: seq<Attempt>): nat {
    if Retries(script) < |script| then Retries(script) + 1 else |script|
  }

  function Flags(cache: seq<nat>, dead: set<nat>): (f: seq<bool>)
    ensures |f| == |cache| && forall i :: 0 <= i < |f| ==> f[i] == (cache[i] in dead)
  {
    seq(|cache|, i requires 0 <= i < |cache| => cache[i] in dead)
  }

  /** The cache without the dead at its left end. */
  function Pruned(cache: seq<nat>, dead: set<nat>): seq<nat> {
    cache[Leading(Flags(cache, dead))..]
  }

  /** The worker of the i-th attempt: from the right end of the cache, then new ones. */
  function Tried(cache: seq<nat>, made: nat, i: nat): nat {
    if i < |cache| then cache[|cache| - 1 - i] else made + i - |cache|
  }

  /** What exceeds: of the attempts those beyond the cached workers, or the other way round. */
  function Beyond(a: nat, b: nat): nat {
    if a < b then 0 else a - b
  }

  /** What is left of the cache after so many attempts. */
  function Remaining(cache: seq<nat>, attempts: nat): seq<nat> {
    cache[..Beyond(|cache|, attempts)]
  }

  /** The first attempt that is not a Retry decides; or a cancellation after one that is. */
  function Ending(script: seq<Attempt>): RunResult {
    var n := Retries(script);
    if n == |script| then StillTrying
    else if script[n].answer.Retry? then GivesUp
    else Leaves(script[n].answer)
  }

  /** The worker that goes back into the cache. */
  function Kept(cache: seq<nat>, made: nat, script: seq<Attempt>): seq<nat> {
    var n := Retries(script);
    if n < |script| && Keeps(script[n].answer) then [Tried(cache, made, n)] else []
  }

  /** Attempts take the workers from the right end of the cache, one by one, and then new
      ones in turn. */
  lemma TriedFromTheRight(cache: seq<nat>, made: nat, i: nat)
    ensures i < |cache| ==> Remaining(cache, i) == Remaining(cache, i + 1) + [Tried(cache, made, i)]
    ensures i >= |cache| ==> Remaining(cache, i) == [] && Tried(cache, made, i) == made + (i - |cache|)
    ensures Remaining(cache, 0) == cache
  {
  }

  /** The prune leaves the cache from its leftmost living worker on. */
  lemma PrunedToTheLiving(cache: seq<nat>, dead: set<nat>)
    ensures Pruned(cache, dead) != [] ==> Pruned(cache, dead)[0] !in dead
    ensures exists n :: 0 <= n <= |cache| && Pruned(cache, dead) == cache[n..] && forall i :: 0 <= i < n ==> cache[i] in dead
  {
  }

  /** The attempt after which the loop does not go on decides what becomes of the call and of
      the worker. */
  lemma DecidingAttempt(cache: seq<nat>, made: nat, script: seq<Attempt>, n: nat)
    requires n < |script| && (forall i :: 0 <= i < n ==> script[i].answer.Retry? && !script[i].cancelled)
    requires !script[n].answer.Retry? || script[n].cancelled
    ensures Attempts(script) == n + 1
    ensures match script[n].answer
            case Retry => Ending(script) == GivesUp && Kept(cache, made, script) == []
            case Raised(_) => Ending(script) == Leaves(script[n].answer) && Kept(cache, made, script) == []
            case _ => Ending(script) == Leaves(script[n].answer) && Kept(cache, made, script) == [Tried(cache, made, n)]
  {
    assert (forall i :: 0 <= i < n ==> GoesOn(script[i])) && !GoesOn(script[n]);
    assert Retries(script) == n;
  }

  /** No worker tried after the cached ones answers None. */
  ghost predicate NewOutlast(script: seq<Attempt>, cached: nat) {
    forall i :: cached <= i < |script| ==> !script[i].answer.Retry?
  }

  lemma OneNewAtMost(script: seq<Attempt>, cached: nat)
    requires NewOutlast(script, cached)
    ensures Attempts(script) <= cached + 1
    ensures cached < |script| ==> Retries(script) < |script|
  {
    assert cached < |script| ==> !GoesOn(script[cached]);
  }

  class WorkerContext {
    const lifetime: ContextLifetimeManager
    var cache: seq<nat>
    var made: nat

    constructor ()
      ensures fresh(lifetime) && lifetime.Valid() && lifetime.View() == Lifetime(0, 0, false)
      ensures cache == [] && made == 0
    {
      lifetime := new ContextLifetimeManager();
      cache, made := [], 0;
    }

    /** `dead` are the workers that have died by the time of the call. */
    method RunSync(dead: set<nat>, script: seq<Attempt>) returns (r: RunResult)
      requires lifetime.Valid()
      modifies this, lifetime
      ensures lifetime.Valid()
      ensures r.ClosedContext? <==> old(lifetime.View().waiting)
      ensures r.ClosedContext? ==> cache == old(cache) && made == old(made) && lifetime.View() == old(lifetime.View())
      ensures !r.ClosedContext? ==>
                var pruned := Pruned(old(cache), dead);
                && r == Ending(script)
                && cache == Remaining(pruned, Attempts(script)) + Kept(pruned, old(made), script)
                && made == old(made) + Beyond(Attempts(script), |pruned|)
                && (NewOutlast(script, |pruned|) ==> made <= old(made) + 1)
                && (NewOutlast(script, |pruned|) && |pruned| < |script| ==> !r.StillTrying?)
                && lifetime.View() == (if r.StillTrying? then old(lifetime.View()).Entered() else old(lifetime.View()).Entered().Exited())
    {
      var closed := lifetime.Enter();
      if closed {
        return ClosedContext;
      }
      cache := Pruned(cache, dead);   // the prune of the cache
      if NewOutlast(script, |cache|) {
        OneNewAtMost(script, |cache|);
      }
      r := TryWorkers(script);
    }

    /** The retry loop itself. */
    method TryWorkers(script: seq<Attempt>) returns (r: RunResult)
      requires lifetime.Valid()
      modifies this, lifetime
      ensures lifetime.Valid()
      ensures r == Ending(script)
      ensures cache == Remaining(old(cache), Attempts(script)) + Kept(old(cache), old(made), script)
      ensures made == old(made) + Beyond(Attempts(script), |old(cache)|)
      ensures lifetime.View() == if r.StillTrying? then old(lifetime.View()) else old(lifetime.View()).Exited()
    {
      var attempt := 0;
      while attempt < |script|
        invariant 0 <= attempt <= Retries(script)
        invariant cache == Remaining(old(cache), attempt)
        invariant made == old(made) + Beyond(attempt, |old(cache)|)
        invariant lifetime.Valid() && lifetime.View() == old(lifetime.View())
      {
        var worker;
        if cache != [] {
          worker := cache[|cache| - 1];
          cache := cache[..|cache| - 1];
        } else {
          worker := made;
          made := made + 1;
        }
        assert worker == Tried(old(cache), old(made), attempt);
        var result := script[attempt];
        attempt := attempt + 1;
        assert cache == Remaining(old(cache), attempt);
        if result.answer.Retry? {
          if result.cancelled {
            var _ := lifetime.Leave();
            return GivesUp;
          }
        } else {
          if Keeps(result.answer) {
            cache := cache + [worker];
          }
          var _ := lifetime.Leave();
          return Leaves(result.answer);
        }
      }
      return StillTrying;
    }
  }
}
