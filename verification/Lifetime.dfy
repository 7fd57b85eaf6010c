/** Who is inside a context, and when its closer is woken. */
module Lifetime {
  import opened Options

  /** The part of a lifetime manager that others can see. */
  datatype Lifetime = Lifetime(entrances: nat, exits: nat, waiting: bool) {
    function Running(): int {
      entrances - exits
    }

    function Entered(): Lifetime {
      this.(entrances := entrances + 1)
    }

    function Exited(): Lifetime {
      this.(exits := exits + 1)
    }

    function Closing(): Lifetime {
      this.(waiting := true)
    }

    /** Leaving now reschedules the closer. */
    predicate Wakes() {
      waiting && Exited().Running() == 0
    }
  }

  /** `enterCounter` and `exitCounter` hold the number their iterator gives next. */
  class ContextLifetimeManager {
    var waitingTask: Option<nat>
    var entrances: nat
    var exits: nat
    var enterCounter: nat
    var exitCounter: nat

    ghost predicate Valid()
      reads this
    {
      enterCounter == entrances + 1 && exitCounter == exits + 1
    }

    function View(): Lifetime
      reads this
    {
      Lifetime(entrances, exits, waitingTask.Some?)
    }

    constructor ()
      ensures Valid() && waitingTask == None && View() == Lifetime(0, 0, false)
    {
      waitingTask := None;
      entrances, exits := 0, 0;
      enterCounter, exitCounter := 1, 1;
    }

    /** __aenter__: raises ClosedResourceError once a closer has been recorded. */
    method Enter() returns (closed: bool)
      requires Valid()
      modifies this
      ensures Valid() && waitingTask == old(waitingTask)
      ensures closed == old(View().waiting)
      ensures View() == if closed then old(View()) else old(View()).Entered()
      ensures entrances == old(entrances) + (if closed then 0 else 1) && exits == old(exits)
    {
      if waitingTask.Some? {
        return true;
      }
      entrances := enterCounter;
      enterCounter := enterCounter + 1;
      return false;
    }

    /** __aexit__: which task it reschedules, if any. */
    method Leave() returns (woken: Option<nat>)
      requires Valid()
      modifies this
      ensures Valid() && waitingTask == old(waitingTask)
      ensures View() == old(View()).Exited()
      ensures entrances == old(entrances) && exits == old(exits) + 1
      ensures woken == if old(View()).Wakes() then waitingTask else None
      ensures woken.Some? <==> waitingTask.Some? && entrances == exits
    {
      exits := exitCounter;
      exitCounter := exitCounter + 1;
      woken := None;
      if waitingTask.Some? {
        if CalcRunning() == 0 {
          woken := waitingTask;
        }
      }
    }

    function CalcRunning(): (n: int)
      reads this
      ensures n == View().Running()
    {
      entrances - exits
    }

    /** The start of `_aclose`: whether the closer has to park. */
    method Close(task: nat) returns (park: bool)
      requires Valid() && !View().waiting
      modifies this
      ensures Valid() && waitingTask == Some(task)
      ensures View() == old(View()).Closing()
      ensures entrances == old(entrances) && exits == old(exits) && (park <==> entrances != exits)
    {
      waitingTask := Some(task);
      park := CalcRunning() != 0;
    }
  }
}
