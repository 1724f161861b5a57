// Sums of sequences of integers, used for byte accounting and for counting.
module Sums {

  ghost function Sum(s: seq<int>): int {
    if s == [] then 0 else s[0] + Sum(s[1..])
  }

  function One(b: bool): (r: int)
    ensures 0 <= r <= 1
  {
    if b then 1 else 0
  }

  lemma {:induction false} SumUpdate(s: seq<int>, k: nat, x: int)
    requires k < |s|
    ensures Sum(s[k := x]) == Sum(s) - s[k] + x
  {
    if k > 0 {
      assert s[k := x][1..] == s[1..][k - 1 := x];
      SumUpdate(s[1..], k - 1, x);
    } else {
      assert s[k := x][1..] == s[1..];
    }
  }

  lemma {:induction false} SumAppend(s: seq<int>, x: int)
    ensures Sum(s + [x]) == Sum(s) + x
  {
    if s == [] {
    } else {
      assert (s + [x])[1..] == s[1..] + [x];
      SumAppend(s[1..], x);
    }
  }

  // A termwise smaller sequence has a smaller sum.
  lemma {:induction false} SumOrdered(low: seq<int>, high: seq<int>)
    requires |low| == |high|
    requires forall i :: 0 <= i < |low| ==> low[i] <= high[i]
    ensures Sum(low) <= Sum(high)
  {
    if low == [] {
    } else {
      SumOrdered(low[1..], high[1..]);
    }
  }

  lemma {:induction false} SumBounded(s: seq<int>, bound: int)
    requires forall i :: 0 <= i < |s| ==> s[i] <= bound
    ensures Sum(s) <= |s| * bound
  {
    if s == [] {
    } else {
      SumBounded(s[1..], bound);
    }
  }

  lemma {:induction false} SumNonNegative(s: seq<int>)
    requires forall i :: 0 <= i < |s| ==> s[i] >= 0
    ensures Sum(s) >= 0
    ensures forall i :: 0 <= i < |s| ==> s[i] <= Sum(s)
    ensures forall i, j :: 0 <= i < j < |s| ==> s[i] + s[j] <= Sum(s)
  {
    if s == [] {
    } else {
      SumNonNegative(s[1..]);
      assert forall i :: 1 <= i < |s| ==> s[i] == s[1..][i - 1];
    }
  }

  // A positive sum of non-negative terms has a positive term.
  lemma {:induction false} SumWitness(s: seq<int>) returns (k: nat)
    requires Sum(s) > 0
    ensures k < |s| && s[k] > 0
  {
    if s[0] > 0 {
      k := 0;
    } else {
      k := SumWitness(s[1..]);
      k := k + 1;
    }
  }

  lemma {:induction false} SumZeros(s: seq<int>)
    requires forall i :: 0 <= i < |s| ==> s[i] == 0
    ensures Sum(s) == 0
  {
    if s == [] {
    } else {
      SumZeros(s[1..]);
    }
  }
}
