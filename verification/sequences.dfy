/** Lists without repetition, and lists taken from others. */
module Sequences {
  predicate Distinct<T(==)>(s: seq<T>) {
    forall i, j :: 0 <= i < j < |s| ==> s[i] != s[j]
  }

  /** `at` says where in `whole` each of `part` stands, in the same order. */
  predicate TakenAt<T(==)>(part: seq<T>, whole: seq<T>, at: seq<nat>) {
    && |at| == |part|
    && (forall k :: 0 <= k < |at| ==> at[k] < |whole| && part[k] == whole[at[k]])
    && (forall k, l :: 0 <= k < l < |at| ==> at[k] < at[l])
  }

  lemma TakenGoesOn<T>(part: seq<T>, whole: seq<T>, at: seq<nat>, last: T)
    requires TakenAt(part, whole, at)
    ensures TakenAt(part, whole + [last], at)
    ensures TakenAt(part + [last], whole + [last], at + [|whole|])
  {
  }

  lemma TakenIsBefore<T>(part: seq<T>, whole: seq<T>, at: seq<nat>)
    requires TakenAt(part, whole, at)
    ensures forall i :: i in at ==> i < |whole|
  {
  }

  lemma TakenIsPart<T>(part: seq<T>, whole: seq<T>, at: seq<nat>, i: nat)
    requires TakenAt(part, whole, at) && i < |whole|
    ensures i in at ==> whole[i] in part
  {
    if i in at {
      var k :| 0 <= k < |at| && at[k] == i;
      assert part[k] == whole[i];
    }
  }

  /** The same places in a list with one more in front. */
  function Later(at: seq<nat>): (later: seq<nat>)
    ensures |later| == |at| && forall k :: 0 <= k < |at| ==> later[k] == at[k] + 1
  {
    seq(|at|, k requires 0 <= k < |at| => at[k] + 1)
  }

  lemma TakenLater<T>(part: seq<T>, whole: seq<T>, at: seq<nat>)
    requires whole != [] && TakenAt(part, whole[1..], at)
    ensures TakenAt(part, whole, Later(at)) && TakenAt([whole[0]] + part, whole, [0] + Later(at))
  {
    assert forall k :: 0 <= k < |at| ==> whole[1..][at[k]] == whole[at[k] + 1];
  }

  lemma InLater(at: seq<nat>, i: nat)
    ensures i in Later(at) <==> i > 0 && i - 1 in at
    ensures i in [0] + Later(at) <==> i == 0 || i - 1 in at
  {
    if i > 0 && i - 1 in at {
      var k :| 0 <= k < |at| && at[k] == i - 1;
      assert Later(at)[k] == i;
    }
    assert i in [0] + Later(at) <==> i == 0 || i in Later(at);
  }
}
