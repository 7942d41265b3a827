/**
 Indicator groups: the one-hot columns of the feature vector. A group of
 width n has n positions, each 0 or 1; a one-hot group has exactly one 1.
 */
module Indicators {
  import opened Wrappers

  /** The group of width `n` whose only set position is `k`. */
  function OneHot(k: nat, n: nat): seq<real>
    requires k < n
  {
    seq(n, i => if i == k then 1.0 else 0.0)
  }

  /** Every position of the group holds 0 or 1. */
  predicate IsIndicatorGroup(v: seq<real>) {
    forall i :: 0 <= i < |v| ==> v[i] == 0.0 || v[i] == 1.0
  }

  /** The number of positions that hold 1. */
  function CountOnes(v: seq<real>): nat
  {
    if |v| == 0 then 0 else (if v[0] == 1.0 then 1 else 0) + CountOnes(v[1..])
  }

  /** Exactly one position is 1 and every other position is 0. */
  predicate ExactlyOneHot(v: seq<real>) {
    IsIndicatorGroup(v) && CountOnes(v) == 1
  }

  lemma {:induction false} CountOnesNone(v: seq<real>)
    requires 1.0 !in v
    ensures CountOnes(v) == 0
  {
    if |v| > 0 {
      assert v == [v[0]] + v[1..];
      CountOnesNone(v[1..]);
    }
  }

  lemma {:induction false} CountOnesAtLeastOne(v: seq<real>, j: nat)
    requires j < |v| && v[j] == 1.0
    ensures CountOnes(v) >= 1
  {
    if j > 0 {
      CountOnesAtLeastOne(v[1..], j - 1);
    }
  }

  lemma {:induction false} CountOnesAtLeastTwo(v: seq<real>, i: nat, j: nat)
    requires i < j < |v| && v[i] == 1.0 && v[j] == 1.0
    ensures CountOnes(v) >= 2
  {
    if i == 0 {
      CountOnesAtLeastOne(v[1..], j - 1);
    } else {
      CountOnesAtLeastTwo(v[1..], i - 1, j - 1);
    }
  }

  /** The group with only position k set is one-hot, whatever its width. */
  lemma {:induction false} OneHotIsExactlyOne(k: nat, n: nat)
    requires k < n
    ensures ExactlyOneHot(OneHot(k, n))
  {
    var v := OneHot(k, n);
    if k == 0 {
      assert 1.0 !in v[1..] by {
        forall i | 0 <= i < |v[1..]| ensures v[1..][i] != 1.0 {
          assert v[1..][i] == v[i + 1];
        }
      }
      CountOnesNone(v[1..]);
    } else {
      assert v[1..] == OneHot(k - 1, n - 1);
      OneHotIsExactlyOne(k - 1, n - 1);
    }
  }

  /** Two groups of the same width with different set positions differ. */
  lemma OneHotInjective(j: nat, k: nat, n: nat)
    requires j < n && k < n
    ensures OneHot(j, n) == OneHot(k, n) <==> j == k
  {
    if OneHot(j, n) == OneHot(k, n) {
      assert OneHot(j, n)[j] == OneHot(k, n)[j];
    }
  }

  /** The first position that holds 1. */
  function FirstOne(v: seq<real>): (k: nat)
    requires 1.0 in v
    ensures k < |v| && v[k] == 1.0
    ensures forall j :: 0 <= j < k ==> v[j] != 1.0
  {
    if v[0] == 1.0 then 0 else 1 + FirstOne(v[1..])
  }

  /** A one-hot group is exactly the group whose only set position is its first 1. */
  lemma ExactlyOneHotIsOneHot(v: seq<real>)
    requires ExactlyOneHot(v)
    ensures 1.0 in v
    ensures v == OneHot(FirstOne(v), |v|)
  {
    if 1.0 !in v {
      CountOnesNone(v);
    }
    var k := FirstOne(v);
    forall j | 0 <= j < |v| && j != k
      ensures v[j] == 0.0
    {
      if v[j] == 1.0 {
        CountOnesAtLeastTwo(v, k, j);
      }
    }
  }

  /**
   The inverse of OneHot: the set position of a one-hot group, and None for
   any other sequence (several or no positions set, or a value other than 0 and 1).
   */
  function HotIndex(v: seq<real>): (r: Option<nat>)
    ensures r.Some? <==> ExactlyOneHot(v)
    ensures r.Some? ==> r.value < |v| && v == OneHot(r.value, |v|)
  {
    if ExactlyOneHot(v) then
      ExactlyOneHotIsOneHot(v);
      Some(FirstOne(v))
    else
      None
  }

  /** Decoding a group built by OneHot gives back its set position. */
  lemma HotIndexOfOneHot(k: nat, n: nat)
    requires k < n
    ensures HotIndex(OneHot(k, n)) == Some(k)
  {
    OneHotIsExactlyOne(k, n);
    var r := HotIndex(OneHot(k, n));
    OneHotInjective(r.value, k, n);
  }
}
