/**
 What the modules share: an optional value, for `undefined`, `null` or a missing key, two functions on numbers,
 and a little about lists.
 */
module Wrappers {
  datatype Option<+T> = None | Some(value: T) {
    function GetOr(default: T): T {
      match this
      case Some(v) => v
      case None => default
    }
  }

  function Max(x: real, y: real): real {
    if x < y then y else x
  }

  function Abs(x: real): real {
    if x < 0.0 then -x else x
  }

  /** `splice(indexOf(x), 1)`, when x is there. */
  function RemoveFirst<T(==)>(xs: seq<T>, x: T): seq<T> {
    if xs == [] then [] else if xs[0] == x then xs[1..] else [xs[0]] + RemoveFirst(xs[1..], x)
  }

  lemma {:induction false} RemoveFirstMembers<T>(xs: seq<T>, x: T)
    requires forall i, j :: 0 <= i < j < |xs| ==> xs[i] != xs[j]
    ensures var ys := RemoveFirst(xs, x);
            && (forall y :: y in ys <==> y in xs && y != x)
            && (forall i :: 0 <= i < |ys| ==> ys[i] in xs && ys[i] != x)
            && (forall i, j :: 0 <= i < j < |ys| ==> ys[i] != ys[j])
  {
    if xs != [] {
      var rest := xs[1..];
      RemoveFirstMembers(rest, x);
      assert xs == [xs[0]] + rest;
      assert xs[0] !in rest;
      if xs[0] != x {
        var ys := RemoveFirst(rest, x);
        assert RemoveFirst(xs, x) == [xs[0]] + ys && xs[0] !in ys;
      }
    }
  }

  function Reverse<T>(xs: seq<T>): seq<T> {
    if xs == [] then [] else Reverse(xs[1..]) + [xs[0]]
  }

  lemma {:induction false} ReverseMembers<T>(xs: seq<T>)
    ensures |Reverse(xs)| == |xs|
    ensures forall x :: x in Reverse(xs) <==> x in xs
  {
    if xs != [] {
      ReverseMembers(xs[1..]);
    }
  }

  lemma {:induction false} ReverseLast<T>(xs: seq<T>)
    requires xs != []
    ensures Reverse(xs) == [xs[|xs| - 1]] + Reverse(xs[..|xs| - 1])
  {
    if |xs| > 1 {
      ReverseLast(xs[1..]);
      assert xs[1..][..|xs| - 2] == xs[..|xs| - 1][1..];
    }
  }
}
