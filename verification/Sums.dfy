// Sums over sequences.

module Sums {
  function Sum<T>(s: seq<T>, v: T -> int): int {
    if s == [] then 0 else Sum(s[..|s| - 1], v) + v(s[|s| - 1])
  }

  lemma {:induction false} SumAppend<T>(s: seq<T>, x: T, v: T -> int)
    ensures Sum(s + [x], v) == Sum(s, v) + v(x)
  {
    assert (s + [x])[..|s|] == s;
  }

  lemma {:induction false} SumUpdate<T>(s: seq<T>, i: nat, x: T, v: T -> int)
    requires i < |s|
    ensures Sum(s[i := x], v) == Sum(s, v) - v(s[i]) + v(x)
  {
    var n := |s| - 1;
    if i == n {
      assert s[i := x][..n] == s[..n];
    } else {
      assert s[i := x][..n] == s[..n][i := x];
      SumUpdate(s[..n], i, x, v);
    }
  }

  lemma {:induction false} SumLe<T>(s: seq<T>, v: T -> int, w: T -> int)
    requires forall i :: 0 <= i < |s| ==> v(s[i]) <= w(s[i])
    ensures Sum(s, v) <= Sum(s, w)
  {
    if s != [] {
      SumLe(s[..|s| - 1], v, w);
    }
  }

  lemma {:induction false} SumZero<T>(s: seq<T>, v: T -> int)
    requires forall i :: 0 <= i < |s| ==> v(s[i]) == 0
    ensures Sum(s, v) == 0
  {
    if s != [] {
      SumZero(s[..|s| - 1], v);
    }
  }
}
