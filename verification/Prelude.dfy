/** Small vocabulary shared by the other modules. */
module Prelude {
  datatype Option<+T> = None | Some(value: T)

  function Max(a: real, b: real): real { if a < b then b else a }

  function Min(a: real, b: real): real { if a < b then a else b }

  function MaxNat(a: nat, b: nat): nat { if a < b then b else a }

  function MinNat(a: nat, b: nat): nat { if a < b then a else b }

  function Sum(s: seq<nat>): nat { if s == [] then 0 else Sum(s[..|s| - 1]) + s[|s| - 1] }

  function SumReal(s: seq<real>): real { if s == [] then 0.0 else SumReal(s[..|s| - 1]) + s[|s| - 1] }

  lemma {:induction false} SumUpdate(s: seq<nat>, i: nat, x: nat)
    requires i < |s|
    ensures Sum(s[i := x]) == Sum(s) - s[i] + x
  {
    var t := s[i := x];
    if i == |s| - 1 {
      assert t[..|t| - 1] == s[..|s| - 1];
    } else {
      assert t[..|t| - 1] == s[..|s| - 1][i := x];
      SumUpdate(s[..|s| - 1], i, x);
    }
  }

  lemma {:induction false} SumRealUpdate(s: seq<real>, i: nat, x: real)
    requires i < |s|
    ensures SumReal(s[i := x]) == SumReal(s) - s[i] + x
  {
    var t := s[i := x];
    if i == |s| - 1 {
      assert t[..|t| - 1] == s[..|s| - 1];
    } else {
      assert t[..|t| - 1] == s[..|s| - 1][i := x];
      SumRealUpdate(s[..|s| - 1], i, x);
    }
  }

  lemma {:induction false} SumZeros(s: seq<nat>)
    requires forall i | 0 <= i < |s| :: s[i] == 0
    ensures Sum(s) == 0
  {
    if s != [] { SumZeros(s[..|s| - 1]); }
  }

  lemma {:induction false} SumRealZeros(s: seq<real>)
    requires forall i | 0 <= i < |s| :: s[i] == 0.0
    ensures SumReal(s) == 0.0
  {
    if s != [] { SumRealZeros(s[..|s| - 1]); }
  }

  lemma PartSmaller<T>(part: set<T>, all: set<T>)
    requires part <= all
    ensures |part| <= |all| && (|part| == |all| ==> part == all)
  {
    assert all == part + (all - part);
  }

  lemma PartLeaves<T>(part: set<T>, all: set<T>)
    requires part <= all && part != all
    ensures exists x :: x in all && x !in part
  {
  }

  /** The last `n` elements of `s`, or all of it when it is shorter. */
  function Last<T>(s: seq<T>, n: nat): (r: seq<T>)
    ensures |r| == MinNat(|s|, n)
    ensures forall i | 0 <= i < |r| :: r[i] == s[|s| - |r| + i]
  {
    if |s| <= n then s else s[|s| - n..]
  }
}
