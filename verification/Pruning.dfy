/** What pruning from the left end does, whatever the cache holds. */
module Pruning {

  /** The number of dead workers before the first living one. */
  function Leading(dead: seq<bool>): (n: nat)
    ensures n <= |dead|
    ensures forall i :: 0 <= i < n ==> dead[i]
    ensures n < |dead| ==> !dead[n]
  {
    if dead != [] && dead[0] then 1 + Leading(dead[1..]) else 0
  }

  lemma LeadingIs(dead: seq<bool>, n: nat)
    requires n <= |dead| && (forall i :: 0 <= i < n ==> dead[i]) && (n < |dead| ==> !dead[n])
    ensures Leading(dead) == n
  {
  }

  /** How many are alive. */
  function Living(dead: seq<bool>): (n: nat)
    ensures n <= |dead|
  {
    if dead == [] then 0 else (if dead[0] then 0 else 1) + Living(dead[1..])
  }

  lemma {:induction false} AllLiving(dead: seq<bool>)
    ensures Living(dead) == |dead| <==> forall i :: 0 <= i < |dead| ==> !dead[i]
  {
    if dead != [] {
      AllLiving(dead[1..]);
      assert dead == [dead[0]] + dead[1..];
    }
  }

  lemma {:induction false} LivingAreRight(dead: seq<bool>)
    ensures Living(dead) == Living(dead[Leading(dead)..])
  {
    if dead != [] && dead[0] {
      LivingAreRight(dead[1..]);
      assert dead[1..][Leading(dead[1..])..] == dead[Leading(dead)..];
    } else {
      assert dead[0..] == dead;
    }
  }

  /** The number of workers a prune leaves, which is the number reported as idle, is never
      less than that of living ones, and equals it if and only if no dead worker sits right
      of a living one. */
  lemma PruneExact(dead: seq<bool>)
    ensures Living(dead) <= |dead| - Leading(dead)
    ensures Living(dead) == |dead| - Leading(dead)
            <==> forall i, j :: 0 <= i < j < |dead| && dead[j] ==> dead[i]
  {
    var left := dead[Leading(dead)..];
    LivingAreRight(dead);
    AllLiving(left);
    assert forall i :: 0 <= i < |left| ==> left[i] == dead[Leading(dead) + i];
    if Living(dead) < |left| {
      var i :| 0 <= i < |left| && left[i];
      assert !dead[Leading(dead)] && dead[Leading(dead) + i];
    } else {
      assert forall i :: Leading(dead) <= i < |dead| ==> dead[i] == left[i - Leading(dead)];
    }
  }
}
