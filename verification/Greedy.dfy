/** What an eviction pass may do: go through the candidates in order until enough is freed. */
module Greedy {

  /** What the first |gone| attempts freed; an attempt that failed frees nothing. */
  function Freed(sizes: seq<nat>, gone: seq<bool>): nat
    requires |gone| <= |sizes|
  {
    if gone == [] then 0
    else
      var k := |gone| - 1;
      Freed(sizes, gone[..k]) + if gone[k] then sizes[k] else 0
  }

  predicate Met(total: nat, target: int, sizes: seq<nat>, gone: seq<bool>)
    requires |gone| <= |sizes|
  {
    total - Freed(sizes, gone) <= target
  }

  /** Before each attempt the target was still exceeded. */
  ghost predicate AllNeeded(total: nat, target: int, sizes: seq<nat>, gone: seq<bool>)
    requires |gone| <= |sizes|
  {
    forall k :: 0 <= k < |gone| ==> !Met(total, target, sizes, gone[..k])
  }

  /** `gone` is a whole pass: no attempt was needless, and the pass ends once the target is met or nothing is left. */
  ghost predicate IsPass(total: nat, target: int, sizes: seq<nat>, gone: seq<bool>) {
    && |gone| <= |sizes|
    && AllNeeded(total, target, sizes, gone)
    && (|gone| == |sizes| || Met(total, target, sizes, gone))
  }

  lemma OneMore(total: nat, target: int, sizes: seq<nat>, gone: seq<bool>, ok: bool)
    requires |gone| < |sizes| && AllNeeded(total, target, sizes, gone) && !Met(total, target, sizes, gone)
    ensures AllNeeded(total, target, sizes, gone + [ok])
    ensures Freed(sizes, gone + [ok]) == Freed(sizes, gone) + if ok then sizes[|gone|] else 0
  {
    assert (gone + [ok])[..|gone|] == gone;
    forall k | 0 <= k <= |gone| ensures !Met(total, target, sizes, (gone + [ok])[..k]) {
      assert (gone + [ok])[..k] == gone[..k];
      assert gone[..|gone|] == gone;
    }
  }

  lemma {:induction false} FreedGrows(sizes: seq<nat>, gone: seq<bool>, k: nat)
    requires k <= |gone| <= |sizes|
    ensures Freed(sizes, gone[..k]) <= Freed(sizes, gone)
  {
    if k < |gone| {
      var shorter := gone[..|gone| - 1];
      assert shorter[..k] == gone[..k];
      FreedGrows(sizes, shorter, k);
    } else {
      assert gone[..k] == gone;
    }
  }

  /** Whichever attempts are going to fail, the pass is determined, and no shorter prefix of the order
      meets the target. */
  lemma PassIsTheShortest(total: nat, target: int, sizes: seq<nat>, answers: seq<bool>, gone: seq<bool>, k: nat)
    requires |answers| == |sizes| && gone <= answers && IsPass(total, target, sizes, gone)
    requires k <= |sizes|
    ensures Met(total, target, sizes, answers[..k]) ==> |gone| <= k
    ensures !Met(total, target, sizes, answers[..k]) && |gone| <= k ==> |gone| == |sizes|
    ensures |gone| < k && (|gone| == |sizes| || Met(total, target, sizes, gone)) ==>
        !IsPass(total, target, sizes, answers[..k])
  {
    if k < |gone| {
      assert gone[..k] == answers[..k];
    } else {
      assert answers[..k][..|gone|] == gone;
      FreedGrows(sizes, answers[..k], |gone|);
    }
  }

  /** A pass that meets its target frees less than the excess plus its last victim. */
  lemma LittleOvershoot(total: nat, target: int, sizes: seq<nat>, gone: seq<bool>)
    requires IsPass(total, target, sizes, gone) && |gone| > 0 && Met(total, target, sizes, gone)
    ensures gone[|gone| - 1]
    ensures Freed(sizes, gone) < total - target + sizes[|gone| - 1]
  {
    var k := |gone| - 1;
    assert !Met(total, target, sizes, gone[..k]);
  }
}
