/** Waiting with an exact clock, in pieces of at most a day. */
module Timing {
  import opened Options

  /** 24 * 60 * 60 seconds */
  const MAX_TIMEOUT: real := 86400.0

  datatype Timeout = Finite(t: real) | Forever {
    predicate Exceeds(limit: real) {
      Forever? || t > limit
    }

    function Minus(elapsed: real): Timeout {
      if Forever? then Forever else Finite(t - elapsed)
    }
  }

  function Later(a: real, b: real): real {
    if a < b then b else a
  }

  /** A wait of this length for an event due at `at`. A negative timeout waits for nothing. */
  function WaitFor(now: real, at: Option<real>, t: real): (r: (bool, real)) {
    var limit := now + Later(t, 0.0);
    if at.Some? && at.value <= limit then (true, Later(now, at.value)) else (false, limit)
  }

  /** Whether the event has happened when the wait ends, and when that is; None if it does
      not end. */
  function Wait(now: real, at: Option<real>, timeout: Timeout): (r: Option<(bool, real)>) {
    match timeout
    case Forever => if at.Some? then Some((true, Later(now, at.value))) else None
    case Finite(t) => Some(WaitFor(now, at, t))
  }

  /** The worker's end of its job pipe: it becomes readable at `readyAt`, if ever, whether
      with bytes or with end of file. `asked` records the waits it was asked for. */
  class RecvPipe {
    const readyAt: Option<real>
    var now: real
    var asked: seq<real>

    constructor (readyAt: Option<real>, now: real)
      ensures this.readyAt == readyAt && this.now == now && asked == []
    {
      this.readyAt, this.now, asked := readyAt, now, [];
    }

    method Poll(t: real) returns (ready: bool)
      modifies this
      ensures (ready, now) == WaitFor(old(now), readyAt, t)
      ensures asked == old(asked) + [t]
    {
      asked := asked + [t];
      var r := WaitFor(now, readyAt, t);
      ready, now := r.0, r.1;
    }
  }

  /** The chunked poll refines one long poll: the same answer at the same moment, asking
      for at most MAX_TIMEOUT at a time. It is watched for at most `patience` chunks; None if
      it is still polling then, which with a finite timeout of less than so many chunks it
      is not. */
  method SafePoll(pipe: RecvPipe, timeout: Timeout, patience: nat) returns (r: Option<bool>)
    modifies pipe
    ensures r.Some? ==> Wait(old(pipe.now), pipe.readyAt, timeout) == Some((r.value, pipe.now))
    ensures r.None? ==> pipe.now == old(pipe.now) + patience as real * MAX_TIMEOUT
    ensures r.None? && timeout.Finite? ==> patience as real * MAX_TIMEOUT < timeout.t
    ensures r.None? && patience > 0 && pipe.readyAt.Some? ==> pipe.now < pipe.readyAt.value
    ensures old(pipe.asked) <= pipe.asked
    ensures forall i :: |old(pipe.asked)| <= i < |pipe.asked| ==> pipe.asked[i] <= MAX_TIMEOUT
  {
    var start := pipe.now;
    var left := timeout;
    var chunks := 0;
    while left.Exceeds(MAX_TIMEOUT)
      invariant 0 <= chunks <= patience && pipe.now == start + chunks as real * MAX_TIMEOUT
      invariant left == timeout.Minus(pipe.now - start)
      invariant chunks > 0 && left.Finite? ==> left.t > 0.0
      invariant chunks > 0 ==> pipe.readyAt.None? || pipe.now < pipe.readyAt.value
      invariant old(pipe.asked) <= pipe.asked
      invariant forall i :: |old(pipe.asked)| <= i < |pipe.asked| ==> pipe.asked[i] <= MAX_TIMEOUT
      decreases patience - chunks
    {
      if chunks == patience {
        return None;
      }
      chunks := chunks + 1;
      var ready := pipe.Poll(MAX_TIMEOUT);
      if ready {
        return Some(true);
      }
      left := timeout.Minus(pipe.now - start);
    }
    var ready := pipe.Poll(left.t);
    r := Some(ready);
  }

  /** What the one long wait answers: yes exactly when the event comes by the deadline, and
      by the deadline; with none, nothing but yes, if the event comes at all. */
  lemma WaitMeansByDeadline(now: real, at: Option<real>, t: real)
    requires t >= 0.0
    ensures var r := Wait(now, at, Finite(t));
            r.Some? && (r.value.0 <==> at.Some? && at.value <= now + t) && now <= r.value.1 <= now + t
    ensures var r := Wait(now, at, Forever);
            if at.None? then r.None? else r.Some? && r.value.0 && r.value.1 == Later(now, at.value)
  {
  }
}
