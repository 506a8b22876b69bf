/** Definitions shared by the models. */
module Basics {

  datatype Option<T> = None | Some(value: T)

  type Byte = n: nat | n < 256

  function Zeros(n: nat): seq<Byte> {
    seq(n, _ => 0)
  }

  function Min(a: nat, b: nat): nat {
    if a < b then a else b
  }

  function Max(a: nat, b: nat): nat {
    if a < b then b else a
  }

  lemma RemoveOne(xs: set<nat>, x: nat)
    ensures |xs| == |xs - {x}| + if x in xs then 1 else 0
  {
    if x !in xs {
      assert xs - {x} == xs;
    }
  }

  lemma {:induction false} SubsetSize(xs: set<nat>, ys: set<nat>)
    requires xs <= ys
    ensures |xs| <= |ys|
    decreases |ys|
  {
    if xs != {} {
      var x :| x in xs;
      SubsetSize(xs - {x}, ys - {x});
    }
  }

  /** A set of numbers below `n` has at most `n` members. */
  lemma {:induction false} BelowSize(xs: set<nat>, n: nat)
    requires forall x :: x in xs ==> x < n
    ensures |xs| <= n
    decreases n
  {
    if n == 0 {
      assert xs == {};
    } else {
      BelowSize(xs - {n - 1}, n - 1);
      RemoveOne(xs, n - 1);
    }
  }

  lemma Regroup<T>(a: seq<T>, b: seq<T>, c: seq<T>)
    ensures (a + b) + c == a + (b + c)
  {
  }
}
