/**
 What "drain the last n inactive sounds" means, independently of how the pool does it. `ended` is
 the set of inactive members; the pool itself is any sequence.
 */
module Draining {
  function Keep<T(==)>(xs: seq<T>, ended: set<T>, wanted: bool): seq<T> {
    if xs == [] then []
    else
      var last := xs[|xs| - 1];
      Keep(xs[..|xs| - 1], ended, wanted) + (if (last in ended) == wanted then [last] else [])
  }

  /** The number of inactive sounds. */
  function Count<T(==)>(xs: seq<T>, ended: set<T>): nat {
    |Keep(xs, ended, true)|
  }

  /** Walk from the end, removing inactive sounds until n are gone. */
  function DropLast<T(==)>(xs: seq<T>, ended: set<T>, n: nat): seq<T> {
    if xs == [] || n == 0 then xs
    else
      var last := xs[|xs| - 1];
      if last in ended then DropLast(xs[..|xs| - 1], ended, n - 1)
      else DropLast(xs[..|xs| - 1], ended, n) + [last]
  }

  predicate Subsequence<T(==)>(a: seq<T>, b: seq<T>) {
    if a == [] then true
    else if b == [] then false
    else (a[|a| - 1] == b[|b| - 1] && Subsequence(a[..|a| - 1], b[..|b| - 1])) || Subsequence(a, b[..|b| - 1])
  }

  lemma {:induction false} SubsequenceOfItself<T>(a: seq<T>)
    ensures Subsequence(a, a)
  {
    if a != [] {
      SubsequenceOfItself(a[..|a| - 1]);
    }
  }

  lemma {:induction false} DropLastInOrder<T>(xs: seq<T>, ended: set<T>, n: nat)
    ensures Subsequence(DropLast(xs, ended, n), xs)
  {
    if xs == [] || n == 0 {
      SubsequenceOfItself(xs);
    } else {
      var rest, last := xs[..|xs| - 1], xs[|xs| - 1];
      DropLastInOrder(rest, ended, if last in ended then n - 1 else n);
      if last !in ended {
        var ys := DropLast(rest, ended, n);
        assert (ys + [last])[..|ys|] == ys;
      }
    }
  }

  lemma {:induction false} DropLastKeepsActive<T>(xs: seq<T>, ended: set<T>, n: nat)
    ensures Keep(DropLast(xs, ended, n), ended, false) == Keep(xs, ended, false)
  {
    if xs != [] && n != 0 {
      var rest, last := xs[..|xs| - 1], xs[|xs| - 1];
      DropLastKeepsActive(rest, ended, if last in ended then n - 1 else n);
      if last !in ended {
        var ys := DropLast(rest, ended, n);
        assert (ys + [last])[..|ys|] == ys;
      }
    }
  }

  lemma {:induction false} DropLastKeepsFirst<T>(xs: seq<T>, ended: set<T>, n: nat)
    requires n <= Count(xs, ended)
    ensures Keep(DropLast(xs, ended, n), ended, true) == Keep(xs, ended, true)[..Count(xs, ended) - n]
  {
    if xs != [] && n != 0 {
      var rest, last := xs[..|xs| - 1], xs[|xs| - 1];
      if last in ended {
        DropLastKeepsFirst(rest, ended, n - 1);
      } else {
        DropLastKeepsFirst(rest, ended, n);
        var ys := DropLast(rest, ended, n);
        assert (ys + [last])[..|ys|] == ys;
      }
    }
  }

  /** Nothing active is lost, the first inactive sounds survive, exactly the last n go, and order is kept. */
  lemma DropLastIsExact<T>(xs: seq<T>, ended: set<T>, n: nat)
    requires n <= Count(xs, ended)
    ensures var ys := DropLast(xs, ended, n);
            && Keep(ys, ended, false) == Keep(xs, ended, false)
            && Keep(ys, ended, true) == Keep(xs, ended, true)[..Count(xs, ended) - n]
            && Subsequence(ys, xs)
  {
    DropLastKeepsActive(xs, ended, n);
    DropLastKeepsFirst(xs, ended, n);
    DropLastInOrder(xs, ended, n);
  }

  lemma {:induction false} DropLastMembers<T>(xs: seq<T>, ended: set<T>, n: nat)
    ensures forall x :: x in DropLast(xs, ended, n) ==> x in xs
    ensures forall x :: x in xs && x !in ended ==> x in DropLast(xs, ended, n)
    ensures (forall i, j :: 0 <= i < j < |xs| ==> xs[i] != xs[j])
            ==> forall i, j :: 0 <= i < j < |DropLast(xs, ended, n)| ==> DropLast(xs, ended, n)[i] != DropLast(xs, ended, n)[j]
  {
    if xs != [] && n != 0 {
      var rest, last := xs[..|xs| - 1], xs[|xs| - 1];
      assert xs == rest + [last];
      DropLastMembers(rest, ended, if last in ended then n - 1 else n);
    }
  }

  lemma {:induction false} CountBound<T>(xs: seq<T>, ended: set<T>)
    ensures Count(xs, ended) <= |xs|
  {
    if xs != [] {
      CountBound(xs[..|xs| - 1], ended);
    }
  }

  /** What the walk makes of the first i sounds when `count` are inactive and `pool` may stay. */
  function Walked<T(==)>(xs: seq<T>, ended: set<T>, i: nat, count: nat, pool: nat): seq<T>
    requires i <= |xs|
  {
    DropLast(xs[..i], ended, if count <= pool then 0 else count - pool)
  }

  /** One step of the walk, at position i of the whole pool, with `tail` behind it already settled. */
  lemma WalkStep<T>(xs: seq<T>, ended: set<T>, i: nat, count: nat, pool: nat, tail: seq<T>)
    requires i < |xs| && count == Count(xs[..i + 1], ended) && count > pool
    ensures var cut := xs[i] in ended;
            && Count(xs[..i], ended) == (if cut then count - 1 else count)
            && Walked(xs, ended, i + 1, count, pool) + tail
               == (if cut then Walked(xs, ended, i, count - 1, pool) + tail
                   else Walked(xs, ended, i, count, pool) + ([xs[i]] + tail))
    ensures xs[..i + 1] + tail == xs[..i] + ([xs[i]] + tail)
  {
    assert xs[..i + 1][..i] == xs[..i];
    if xs[i] !in ended {
      var rest := Walked(xs, ended, i, count, pool);
      assert (rest + [xs[i]]) + tail == rest + ([xs[i]] + tail);
    }
  }

  /** Only membership of the pool's own sounds matters. */
  lemma {:induction false} KeepAgrees<T>(xs: seq<T>, e1: set<T>, e2: set<T>, wanted: bool)
    requires forall x :: x in xs ==> (x in e1 <==> x in e2)
    ensures Keep(xs, e1, wanted) == Keep(xs, e2, wanted)
  {
    if xs != [] {
      KeepAgrees(xs[..|xs| - 1], e1, e2, wanted);
    }
  }

  /** A pool drained to at most `pool` inactive sounds. */
  function Drained<T(==)>(xs: seq<T>, ended: set<T>, pool: nat): seq<T> {
    var count := Count(xs, ended);
    DropLast(xs, ended, if count <= pool then 0 else count - pool)
  }

  /** Below the limit there is nothing to drain. */
  lemma SmallPool<T>(xs: seq<T>, ended: set<T>, pool: nat)
    requires |xs| <= pool
    ensures Drained(xs, ended, pool) == xs
  {
    CountBound(xs, ended);
  }

  lemma DrainedMembers<T>(xs: seq<T>, ended: set<T>, pool: nat)
    requires forall i, j :: 0 <= i < j < |xs| ==> xs[i] != xs[j]
    ensures var ys := Drained(xs, ended, pool);
            && (forall x :: x in ys ==> x in xs)
            && (forall x :: x in xs && x !in ended ==> x in ys)
            && (forall i, j :: 0 <= i < j < |ys| ==> ys[i] != ys[j])
  {
    var count := Count(xs, ended);
    DropLastMembers(xs, ended, if count <= pool then 0 else count - pool);
  }

  /** ... counted with any set that agrees on the sounds that are left. */
  lemma DrainedCount<T>(xs: seq<T>, ended: set<T>, pool: nat, after: set<T>)
    requires forall x :: x in Drained(xs, ended, pool) ==> (x in ended <==> x in after)
    ensures Count(Drained(xs, ended, pool), after) <= pool
  {
    var count := Count(xs, ended);
    DropLastIsExact(xs, ended, if count <= pool then 0 else count - pool);
    KeepAgrees(Drained(xs, ended, pool), ended, after, true);
  }

  lemma {:induction false} KeepMember<T>(xs: seq<T>, ended: set<T>, wanted: bool, x: T)
    ensures x in Keep(xs, ended, wanted) <==> x in xs && (x in ended) == wanted
  {
    if xs != [] {
      var rest, last := xs[..|xs| - 1], xs[|xs| - 1];
      assert xs == rest + [last];
      KeepMember(rest, ended, wanted, x);
    }
  }

  lemma {:induction false} DropLastShorter<T>(xs: seq<T>, ended: set<T>, n: nat)
    ensures |DropLast(xs, ended, n)| <= |xs|
  {
    if xs != [] && n != 0 {
      DropLastShorter(xs[..|xs| - 1], ended, if xs[|xs| - 1] in ended then n - 1 else n);
    }
  }

  /** A pool that may keep an inactive sound, and has one, still has one when it is drained. */
  lemma DrainedRoom<T>(xs: seq<T>, ended: set<T>, pool: nat, x: T)
    requires pool >= 1 && x in xs && x in ended
    ensures |Drained(xs, ended, pool)| <= |xs|
    ensures exists y :: y in Drained(xs, ended, pool) && y in ended
  {
    var count := Count(xs, ended);
    var n := if count <= pool then 0 else count - pool;
    DropLastShorter(xs, ended, n);
    DropLastIsExact(xs, ended, n);
    KeepMember(xs, ended, true, x);
    var left := Keep(Drained(xs, ended, pool), ended, true);
    assert left == Keep(xs, ended, true)[..count - n] && left != [];
    var y := left[0];
    assert y in left;
    KeepMember(Drained(xs, ended, pool), ended, true, y);
  }

  lemma {:induction false} KeepNone<T>(xs: seq<T>, ended: set<T>)
    requires forall x :: x in xs ==> x !in ended
    ensures Keep(xs, ended, true) == []
  {
    if xs != [] {
      KeepNone(xs[..|xs| - 1], ended);
    }
  }

  /** A pool without inactive sounds gains one. */
  lemma OneMore<T>(xs: seq<T>, x: T, ended: set<T>)
    requires forall y :: y in xs ==> y !in ended
    ensures Count(xs + [x], ended) <= 1
  {
    KeepNone(xs, ended);
    assert (xs + [x])[..|xs|] == xs;
  }
}
