/** Option values and sums over sequences, shared by the protocol models. */
module Base {

  datatype Option<+T> = None | Some(value: T)

  /** The sum of `f` over the elements of `s`. */
  ghost function SumBy<T>(s: seq<T>, f: T -> nat): nat {
    if s == [] then 0 else SumBy(s[..|s| - 1], f) + f(s[|s| - 1])
  }

  lemma {:induction false} SumUpdate<T>(s: seq<T>, f: T -> nat, i: nat, x: T)
    requires i < |s|
    ensures SumBy(s[i := x], f) + f(s[i]) == SumBy(s, f) + f(x)
  {
    var t := s[i := x];
    var n := |s| - 1;
    if i == n {
      assert t[..n] == s[..n];
    } else {
      assert t[..n] == s[..n][i := x];
      SumUpdate(s[..n], f, i, x);
    }
  }

  lemma SumAppend<T>(s: seq<T>, f: T -> nat, x: T)
    ensures SumBy(s + [x], f) == SumBy(s, f) + f(x)
  {
    assert (s + [x])[..|s|] == s;
  }

  lemma {:induction false} SumAtLeast<T>(s: seq<T>, f: T -> nat, i: nat)
    requires i < |s|
    ensures SumBy(s, f) >= f(s[i])
  {
    if i < |s| - 1 {
      SumAtLeast(s[..|s| - 1], f, i);
    }
  }

  lemma {:induction false} SumAtLeastTwo<T>(s: seq<T>, f: T -> nat, i: nat, k: nat)
    requires i < k < |s|
    ensures SumBy(s, f) >= f(s[i]) + f(s[k])
  {
    if k < |s| - 1 {
      SumAtLeastTwo(s[..|s| - 1], f, i, k);
    } else {
      SumAtLeast(s[..|s| - 1], f, i);
    }
  }

  lemma {:induction false} SumOfZeros<T>(s: seq<T>, f: T -> nat)
    requires forall i :: 0 <= i < |s| ==> f(s[i]) == 0
    ensures SumBy(s, f) == 0
  {
    if s != [] {
      SumOfZeros(s[..|s| - 1], f);
    }
  }

  lemma {:induction false} SumAtMost<T>(s: seq<T>, f: T -> nat, g: T -> nat)
    requires forall i :: 0 <= i < |s| ==> f(s[i]) <= g(s[i])
    ensures SumBy(s, f) <= SumBy(s, g)
  {
    if s != [] {
      SumAtMost(s[..|s| - 1], f, g);
    }
  }

  lemma {:induction false} SumOfOnes<T>(s: seq<T>, f: T -> nat)
    requires forall i :: 0 <= i < |s| ==> f(s[i]) <= 1
    ensures SumBy(s, f) <= |s|
    ensures (forall i :: 0 <= i < |s| ==> f(s[i]) == 1) ==> SumBy(s, f) == |s|
  {
    if s != [] {
      SumOfOnes(s[..|s| - 1], f);
    }
  }
}
