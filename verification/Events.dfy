/**
 Listener lists: `on`, `once`, `off`, and `_emit`, which walks a list from the back while `off` cuts
 entries out of it. What a walk does is stated for every list, also one that holds the same
 (callback, id) pair more than once, where `off` may cut out another entry than the one that fired.
 */
module Events {
  import opened Wrappers

  /** One entry. `tag` is the entry's own identity; `fn` the callback's; no id means every sound. */
  datatype Listener = Listener(tag: nat, fn: nat, id: Option<int>, once: bool)

  /** The emitted event: its sound id, and whether it is 'load', which every listener hears. */
  datatype Emission = Emission(id: Option<int>, isLoad: bool)

  predicate Hears(l: Listener, e: Emission) {
    l.id == None || l.id == Some(0) || l.id == e.id || e.isLoad
  }

  /** `off` cannot tell these two apart. */
  predicate Twins(l: Listener, m: Listener) {
    l.fn == m.fn && l.id == m.id
  }

  /** Cut out the first twin. */
  function CutFirst(ls: seq<Listener>, l: Listener): seq<Listener> {
    if ls == [] then [] else if Twins(ls[0], l) then ls[1..] else [ls[0]] + CutFirst(ls[1..], l)
  }

  /** The list the walk goes on with after its i-th entry. */
  function After(ls: seq<Listener>, i: nat, e: Emission): (next: seq<Listener>)
    requires 0 < i <= |ls|
    ensures i - 1 <= |next|
  {
    CutLength(ls, ls[i - 1]);
    if Hears(ls[i - 1], e) && ls[i - 1].once then CutFirst(ls, ls[i - 1]) else ls
  }

  /** The walk of `_emit` over the first i entries: what is left of the list ... */
  function Left(ls: seq<Listener>, i: nat, e: Emission): seq<Listener>
    requires i <= |ls|
    decreases i
  {
    if i == 0 then ls else Left(After(ls, i, e), i - 1, e)
  }

  /** Who fires at the i-th entry. */
  function Shot(ls: seq<Listener>, i: nat, e: Emission): seq<Listener>
    requires 0 < i <= |ls|
  {
    if Hears(ls[i - 1], e) then [ls[i - 1]] else []
  }

  /** ... and who fires, in which order. */
  function Fired(ls: seq<Listener>, i: nat, e: Emission): seq<Listener>
    requires i <= |ls|
    decreases i
  {
    if i == 0 then [] else Shot(ls, i, e) + Fired(After(ls, i, e), i - 1, e)
  }

  lemma {:induction false} CutLength(ls: seq<Listener>, l: Listener)
    ensures |CutFirst(ls, l)| == if exists m :: m in ls && Twins(m, l) then |ls| - 1 else |ls|
  {
    if ls != [] {
      CutLength(ls[1..], l);
      assert ls == [ls[0]] + ls[1..];
    }
  }

  // ---------------------------------------------------------------- what a walk leaves

  /** An entry outlives the walk when it is not addressed, or when neither it nor a later twin is a `once`. */
  predicate Outlives(ls: seq<Listener>, k: nat, e: Emission)
    requires k < |ls|
  {
    !Hears(ls[k], e) || forall m :: k <= m < |ls| && Twins(ls[m], ls[k]) ==> !ls[m].once
  }

  /** The entries that outlive the walk, in order. */
  function Survivors(ls: seq<Listener>, e: Emission): seq<Listener> {
    if ls == [] then []
    else (if Outlives(ls, 0, e) then [ls[0]] else []) + Survivors(ls[1..], e)
  }

  /** One for an addressed entry with this callback. */
  function Heard(l: Listener, e: Emission, fn: nat): nat {
    if Hears(l, e) && l.fn == fn then 1 else 0
  }

  /** How often this callback is registered among the entries an emission addresses. */
  function Registered(ls: seq<Listener>, e: Emission, fn: nat): nat {
    if ls == [] then 0 else Heard(ls[0], e, fn) + Registered(ls[1..], e, fn)
  }

  lemma {:induction false} RegisteredSnoc(ls: seq<Listener>, l: Listener, e: Emission, fn: nat)
    ensures Registered(ls + [l], e, fn) == Registered(ls, e, fn) + Heard(l, e, fn)
  {
    if ls != [] {
      RegisteredSnoc(ls[1..], l, e, fn);
      assert (ls + [l])[1..] == ls[1..] + [l];
    }
  }

  /** An entry at the back that is not an addressed `once` changes nothing for the others. */
  lemma {:induction false} SurvivorsKeepLast(ls: seq<Listener>, l: Listener, e: Emission)
    requires !Hears(l, e) || !l.once
    ensures Survivors(ls + [l], e) == Survivors(ls, e) + [l]
  {
    if ls == [] {
      assert [l][1..] == [];
    } else {
      SurvivorsKeepLast(ls[1..], l, e);
      assert (ls + [l])[1..] == ls[1..] + [l];
      assert Outlives(ls + [l], 0, e) == Outlives(ls, 0, e) by {
        assert forall m :: 0 <= m < |ls| ==> (ls + [l])[m] == ls[m];
      }
    }
  }

  /** An addressed `once` at the back goes, and takes its twins with it: cutting one out beforehand changes nothing. */
  lemma {:induction false} SurvivorsCut(ls: seq<Listener>, l: Listener, e: Emission)
    requires Hears(l, e) && l.once
    ensures Survivors(ls + [l], e) == Survivors(CutFirst(ls + [l], l), e)
  {
    var all := ls + [l];
    if ls == [] {
      assert CutFirst(all, l) == [] && all[1..] == [];
    } else {
      assert all[1..] == ls[1..] + [l];
      if Twins(ls[0], l) {
        assert all[|ls|] == l && !Outlives(all, 0, e);
      } else {
        var cut := CutFirst(all[1..], l);
        assert CutFirst(all, l) == [ls[0]] + cut && ([ls[0]] + cut)[1..] == cut;
        SurvivorsCut(ls[1..], l, e);
        CutKeepsOthers(all[1..], l, ls[0]);
        assert Outlives(all, 0, e) == Outlives([ls[0]] + cut, 0, e) by {
          OutlivesAsHead(ls[0], all[1..], e);
          OutlivesAsHead(ls[0], cut, e);
          assert all == [ls[0]] + all[1..];
        }
      }
    }
  }

  /** Whether the front entry outlives the walk depends on the rest only through its `once` twins there. */
  lemma OutlivesAsHead(h: Listener, rest: seq<Listener>, e: Emission)
    ensures Outlives([h] + rest, 0, e) <==>
            !Hears(h, e) || (!h.once && forall m :: m in rest && Twins(m, h) ==> !m.once)
  {
    var all := [h] + rest;
    if Outlives(all, 0, e) && Hears(h, e) {
      assert Twins(all[0], h);
      forall m | m in rest && Twins(m, h)
        ensures !m.once
      {
        var k :| 0 <= k < |rest| && rest[k] == m;
        assert all[k + 1] == m;
      }
    }
    forall m | 0 <= m < |all|
      ensures all[m] == h || all[m] in rest
    {
    }
  }

  /** Cutting a twin of l leaves the entries that are no twins of l. */
  lemma {:induction false} CutKeepsOthers(ls: seq<Listener>, l: Listener, other: Listener)
    requires !Twins(other, l)
    ensures forall m :: Twins(m, other) ==> (m in CutFirst(ls, l) <==> m in ls)
  {
    if ls != [] {
      CutKeepsOthers(ls[1..], l, other);
      assert ls == [ls[0]] + ls[1..];
    }
  }

  /** If the first twin is among the first i entries, cutting it works on those alone. */
  lemma {:induction false} CutPrefix(ls: seq<Listener>, i: nat, l: Listener)
    requires 0 < i <= |ls| && Twins(ls[i - 1], l)
    ensures CutFirst(ls, l) == CutFirst(ls[..i], l) + ls[i..]
    ensures |CutFirst(ls[..i], l)| == i - 1
  {
    if Twins(ls[0], l) {
      assert ls[..i][1..] + ls[i..] == ls[1..];
    } else {
      CutPrefix(ls[1..], i - 1, l);
      assert ls[1..][..i - 1] == ls[..i][1..];
      assert ls[1..][i - 1..] == ls[i..];
      assert ls[..i][0] == ls[0];
    }
  }

  /** Cut out the first entry with this id, whatever its callback. */
  function CutById(ls: seq<Listener>, id: Option<int>): seq<Listener> {
    if ls == [] then [] else if ls[0].id == id then ls[1..] else [ls[0]] + CutById(ls[1..], id)
  }

  lemma {:induction false} CutByIdAt(ls: seq<Listener>, i: nat, id: Option<int>)
    requires i <= |ls| && forall j :: 0 <= j < i ==> ls[j].id != id
    ensures i < |ls| && ls[i].id == id ==> CutById(ls, id) == ls[..i] + ls[i + 1..]
    ensures i == |ls| ==> CutById(ls, id) == ls
  {
    if i > 0 {
      CutByIdAt(ls[1..], i - 1, id);
      if i < |ls| {
        assert ls[..i] == [ls[0]] + ls[1..][..i - 1] && ls[1..][i..] == ls[i + 1..];
      }
    }
  }

  lemma {:induction false} CutAt(ls: seq<Listener>, i: nat, l: Listener)
    requires i < |ls| && Twins(ls[i], l) && forall j :: 0 <= j < i ==> !Twins(ls[j], l)
    ensures CutFirst(ls, l) == ls[..i] + ls[i + 1..]
  {
    if i > 0 {
      assert !Twins(ls[0], l);
      CutAt(ls[1..], i - 1, l);
      assert ls[..i] == [ls[0]] + ls[1..][..i - 1];
    }
  }

  lemma {:induction false} CutNothing(ls: seq<Listener>, l: Listener)
    requires forall j :: 0 <= j < |ls| ==> !Twins(ls[j], l)
    ensures CutFirst(ls, l) == ls
  {
    if ls != [] {
      CutNothing(ls[1..], l);
    }
  }

  /** Cutting a twin loses one of its callbacks. */
  lemma {:induction false} RegisteredCut(ls: seq<Listener>, l: Listener, e: Emission, fn: nat)
    requires Hears(l, e) && exists m :: m in ls && Twins(m, l)
    ensures Registered(ls, e, fn) == Registered(CutFirst(ls, l), e, fn) + Heard(l, e, fn)
  {
    if !Twins(ls[0], l) {
      assert ls == [ls[0]] + ls[1..];
      RegisteredCut(ls[1..], l, e, fn);
      var cut := CutFirst(ls[1..], l);
      assert ([ls[0]] + cut)[1..] == cut;
    }
  }

  /** How often this callback is scheduled. */
  function Scheduled(fired: seq<Listener>, fn: nat): nat {
    if fired == [] then 0 else (if fired[0].fn == fn then 1 else 0) + Scheduled(fired[1..], fn)
  }

  /** What a walk leaves are the entries that outlive it, in order. */
  lemma {:induction false} WalkLeaves(ls: seq<Listener>, i: nat, e: Emission)
    requires i <= |ls|
    ensures Left(ls, i, e) == Survivors(ls[..i], e) + ls[i..]
    decreases i
  {
    if i == 0 {
      assert ls[0..] == ls && ls[..0] == [];
    } else {
      WalkLeaves(After(ls, i, e), i - 1, e);
      SurvivorsAfter(ls, i, e);
    }
  }

  lemma SurvivorsAfter(ls: seq<Listener>, i: nat, e: Emission)
    requires 0 < i <= |ls|
    ensures var next := After(ls, i, e);
            Survivors(ls[..i], e) + ls[i..] == Survivors(next[..i - 1], e) + next[i - 1..]
  {
    var l, before := ls[i - 1], ls[..i - 1];
    if Hears(l, e) && l.once {
      CutLeaves(ls, i, e);
    } else {
      assert ls[..i] == before + [l];
      SurvivorsKeepLast(before, l, e);
      assert ls[i - 1..] == [l] + ls[i..];
      assert (Survivors(before, e) + [l]) + ls[i..] == Survivors(before, e) + ([l] + ls[i..]);
    }
  }

  lemma RegisteredAfter(ls: seq<Listener>, i: nat, e: Emission, fn: nat)
    requires 0 < i <= |ls|
    ensures Registered(ls[..i], e, fn) == Registered(After(ls, i, e)[..i - 1], e, fn) + Heard(ls[i - 1], e, fn)
  {
    assert ls[..i] == ls[..i - 1] + [ls[i - 1]];
    if Hears(ls[i - 1], e) && ls[i - 1].once {
      CutLeaves(ls, i, e);
      RegisteredCut(ls[..i], ls[i - 1], e, fn);
    } else {
      RegisteredSnoc(ls[..i - 1], ls[i - 1], e, fn);
    }
  }

  lemma ScheduledShot(ls: seq<Listener>, i: nat, e: Emission, rest: seq<Listener>, fn: nat)
    requires 0 < i <= |ls|
    ensures Scheduled(Shot(ls, i, e) + rest, fn) == Heard(ls[i - 1], e, fn) + Scheduled(rest, fn)
  {
    if Hears(ls[i - 1], e) {
      assert ([ls[i - 1]] + rest)[1..] == rest;
    } else {
      assert [] + rest == rest;
    }
  }

  /** For every list: each callback is scheduled as often as the emission addresses an entry with it. */
  lemma {:induction false} WalkFires(ls: seq<Listener>, i: nat, e: Emission, fn: nat)
    requires i <= |ls|
    ensures Scheduled(Fired(ls, i, e), fn) == Registered(ls[..i], e, fn)
    decreases i
  {
    if i == 0 {
      assert ls[..0] == [];
    } else {
      var next := After(ls, i, e);
      WalkFires(next, i - 1, e, fn);
      RegisteredAfter(ls, i, e, fn);
      ScheduledShot(ls, i, e, Fired(next, i - 1, e), fn);
    }
  }

  /** Around an addressed `once` at the end of the first i entries, a cut changes neither side of the claim. */
  lemma CutLeaves(ls: seq<Listener>, i: nat, e: Emission)
    requires 0 < i <= |ls| && Hears(ls[i - 1], e) && ls[i - 1].once
    ensures var cut := CutFirst(ls, ls[i - 1]);
            && |cut| == |ls| - 1 && cut[i - 1..] == ls[i..]
            && Survivors(cut[..i - 1], e) == Survivors(ls[..i], e)
            && cut[..i - 1] == CutFirst(ls[..i], ls[i - 1])
            && ls[i - 1] in ls[..i] && Twins(ls[i - 1], ls[i - 1])
  {
    var l, before := ls[i - 1], ls[..i - 1];
    assert ls[..i] == before + [l];
    CutPrefix(ls, i, l);
    assert CutFirst(ls, l)[..i - 1] == CutFirst(ls[..i], l);
    SurvivorsCut(before, l, e);
    assert l in ls[..i];
  }

  // ---------------------------------------------------------------- when a walk is exact

  /** What `_emit` is for: the entries not addressed, and the addressed ones that were not `once`. */
  function Expected(ls: seq<Listener>, e: Emission): seq<Listener> {
    if ls == [] then []
    else (if !Hears(ls[0], e) || !ls[0].once then [ls[0]] else []) + Expected(ls[1..], e)
  }

  /** The addressed entries, from the back. */
  function Addressed(ls: seq<Listener>, e: Emission): seq<Listener> {
    if ls == [] then []
    else Addressed(ls[1..], e) + if Hears(ls[0], e) then [ls[0]] else []
  }

  /** No lasting listener that is addressed has a later twin registered with `once`. */
  predicate NoLateOnce(ls: seq<Listener>, e: Emission) {
    forall j, k :: 0 <= j < k < |ls| && Hears(ls[j], e) && !ls[j].once && Twins(ls[k], ls[j]) ==> !ls[k].once
  }

  predicate Distinct(ls: seq<Listener>) {
    forall j, k :: 0 <= j < k < |ls| ==> !Twins(ls[j], ls[k])
  }

  lemma {:induction false} SurvivorsShort(ls: seq<Listener>, e: Emission)
    ensures |Survivors(ls, e)| <= |Expected(ls, e)|
  {
    if ls != [] {
      SurvivorsShort(ls[1..], e);
      assert Outlives(ls, 0, e) ==> !Hears(ls[0], e) || !ls[0].once;
    }
  }

  lemma {:induction false} SurvivorsExpected(ls: seq<Listener>, e: Emission)
    ensures Survivors(ls, e) == Expected(ls, e) <==> NoLateOnce(ls, e)
  {
    if ls != [] {
      SurvivorsExpected(ls[1..], e);
      SurvivorsShort(ls[1..], e);
      if Outlives(ls, 0, e) {
        assert Survivors(ls, e)[1..] == Survivors(ls[1..], e);
        assert !Hears(ls[0], e) || !ls[0].once;
        assert Expected(ls, e)[1..] == Expected(ls[1..], e);
      } else if ls[0].once {
        assert Hears(ls[0], e);
        assert Survivors(ls, e) == Survivors(ls[1..], e) && Expected(ls, e) == Expected(ls[1..], e);
      } else {
        assert |Survivors(ls, e)| < |Expected(ls, e)|;
      }
    }
  }

  /**
   The listeners left after an emission are exactly those not addressed or not `once`, in their original
   order, if and only if no addressed lasting listener has a later `once` twin.
   */
  lemma EmissionExact(ls: seq<Listener>, e: Emission)
    ensures Left(ls, |ls|, e) == Expected(ls, e) <==> NoLateOnce(ls, e)
    ensures forall fn: nat :: Scheduled(Fired(ls, |ls|, e), fn) == Registered(ls, e, fn)
  {
    assert ls[..|ls|] == ls && ls[|ls|..] == [];
    WalkLeaves(ls, |ls|, e);
    forall fn: nat
      ensures Scheduled(Fired(ls, |ls|, e), fn) == Registered(ls, e, fn)
    {
      WalkFires(ls, |ls|, e, fn);
    }
    SurvivorsExpected(ls, e);
  }

  /** With distinct pairs every cut takes the entry that fired, so each addressed entry fires once, from the back. */
  lemma {:induction false} DistinctFires(ls: seq<Listener>, i: nat, e: Emission)
    requires i <= |ls| && Distinct(ls[..i])
    ensures Fired(ls, i, e) == Addressed(ls[..i], e)
    decreases i
  {
    if i > 0 {
      var l, before := ls[i - 1], ls[..i - 1];
      assert ls[..i] == before + [l];
      assert forall j :: 0 <= j < i - 1 ==> ls[..i][j] == ls[j];
      AddressedSnoc(before, l, e);
      if Hears(l, e) && l.once {
        CutOwn(ls, i, l);
        DistinctFires(CutFirst(ls, l), i - 1, e);
      } else {
        DistinctFires(ls, i - 1, e);
      }
    }
  }

  lemma {:induction false} AddressedSnoc(ls: seq<Listener>, l: Listener, e: Emission)
    ensures Addressed(ls + [l], e) == (if Hears(l, e) then [l] else []) + Addressed(ls, e)
  {
    if ls == [] {
      assert [l][1..] == [];
    } else {
      AddressedSnoc(ls[1..], l, e);
      assert (ls + [l])[1..] == ls[1..] + [l];
    }
  }

  /** The first twin of an entry without earlier twins is the entry itself. */
  lemma CutOwn(ls: seq<Listener>, i: nat, l: Listener)
    requires 0 < i <= |ls| && ls[i - 1] == l
    requires forall j :: 0 <= j < i - 1 ==> !Twins(ls[j], l)
    ensures |CutFirst(ls, l)| == |ls| - 1 && CutFirst(ls, l)[..i - 1] == ls[..i - 1]
  {
    CutAt(ls, i - 1, l);
  }

  /** With distinct (callback, id) pairs an emission is exact in every respect. */
  lemma DistinctEmission(ls: seq<Listener>, e: Emission)
    requires Distinct(ls)
    ensures Fired(ls, |ls|, e) == Addressed(ls, e) && Left(ls, |ls|, e) == Expected(ls, e)
  {
    assert ls[..|ls|] == ls;
    DistinctFires(ls, |ls|, e);
    EmissionExact(ls, e);
    assert NoLateOnce(ls, e);
  }

  lemma DistinctRest(ls: seq<Listener>)
    requires ls != [] && Distinct(ls)
    ensures Distinct(ls[1..]) && ls[0] !in ls[1..]
  {
    var rest := ls[1..];
    assert forall j, k :: 0 <= j < k < |rest| ==> rest[j] == ls[j + 1] && rest[k] == ls[k + 1];
    forall k | 0 <= k < |rest|
      ensures rest[k] != ls[0]
    {
      assert !Twins(ls[0], ls[k + 1]);
    }
  }

  /** Listener by listener: how often it is addressed. */
  lemma {:induction false} AddressedOf(ls: seq<Listener>, e: Emission, l: Listener)
    requires Distinct(ls)
    ensures multiset(Addressed(ls, e))[l] == if l in ls && Hears(l, e) then 1 else 0
  {
    if ls != [] {
      DistinctRest(ls);
      AddressedOf(ls[1..], e, l);
      assert ls == [ls[0]] + ls[1..];
    }
  }

  /** And whether it is expected to stay. */
  lemma {:induction false} ExpectedOf(ls: seq<Listener>, e: Emission, l: Listener)
    ensures l in Expected(ls, e) <==> l in ls && !(Hears(l, e) && l.once)
  {
    if ls != [] {
      ExpectedOf(ls[1..], e, l);
      assert ls == [ls[0]] + ls[1..];
    }
  }

  /**
   With distinct pairs: a listener for every sound, or for sound 0, is scheduled once by any emission; one for
   another sound once by an emission for that sound or of 'load', and else not. Whoever is scheduled and `once` goes.
   */
  lemma EachListener(ls: seq<Listener>, e: Emission)
    requires Distinct(ls)
    ensures forall l: Listener ::
              var reached := match l.id case None => true case Some(k) => k == 0 || e.isLoad || e.id == Some(k);
              && multiset(Fired(ls, |ls|, e))[l] == (if l in ls && reached then 1 else 0)
              && (l in Left(ls, |ls|, e) <==> l in ls && (reached ==> !l.once))
  {
    DistinctEmission(ls, e);
    forall l: Listener
      ensures multiset(Addressed(ls, e))[l] == if l in ls && Hears(l, e) then 1 else 0
      ensures l in Expected(ls, e) <==> l in ls && !(Hears(l, e) && l.once)
    {
      AddressedOf(ls, e, l);
      ExpectedOf(ls, e, l);
    }
  }

  /**
   The playbacks waiting for 'resume': each is a callback of its own, registered with `once` for no
   sound in particular. One emission schedules them all, latest first, and leaves none.
   */
  lemma {:induction false} WaitingAllFire(ls: seq<Listener>, e: Emission)
    requires Distinct(ls) && forall k :: 0 <= k < |ls| ==> ls[k].once && ls[k].id == None
    ensures Fired(ls, |ls|, e) == Reverse(ls) && Left(ls, |ls|, e) == []
  {
    DistinctEmission(ls, e);
    AllAddressed(ls, e);
  }

  lemma {:induction false} AllAddressed(ls: seq<Listener>, e: Emission)
    requires forall k :: 0 <= k < |ls| ==> ls[k].once && ls[k].id == None
    ensures Addressed(ls, e) == Reverse(ls) && Expected(ls, e) == []
  {
    if ls != [] {
      AllAddressed(ls[1..], e);
    }
  }

  /** Why the condition is needed: register a callback, then the same one with `once`. One event removes both. */
  lemma OnceTakesALastingTwin(fn: nat, e: Emission)
    ensures var lasting := Listener(0, fn, None, false);
            var once := Listener(1, fn, None, true);
            && Fired([lasting, once], 2, e) == [once, once] && Left([lasting, once], 2, e) == []
            && Expected([lasting, once], e) == [lasting]
  {
    var lasting, once := Listener(0, fn, None, false), Listener(1, fn, None, true);
    assert CutFirst([lasting, once], once) == [once];
    assert CutFirst([once], once) == [];
    assert Fired([once], 1, e) == [once] && Left([once], 1, e) == [];
    assert [lasting, once][1..] == [once] && [once][1..] == [];
    assert Expected([once], e) == [];
  }

  // ---------------------------------------------------------------- the list itself

  /** One event's listeners, and the callbacks `setTimeout(..., 0)` has been given so far. */
  class Emitter {
    var events: seq<Listener>
    var scheduled: seq<Listener>
    var tags: nat

    constructor ()
      ensures events == [] && scheduled == []
    {
      events, scheduled, tags := [], [], 0;
    }

    method On(fn: nat, id: Option<int>, once: bool)
      modifies this
      ensures tags == old(tags) + 1 && scheduled == old(scheduled)
      ensures events == old(events) + [Listener(old(tags), fn, id, once)]
    {
      events := events + [Listener(tags, fn, id, once)];
      tags := tags + 1;
    }

    /**
     `off(event, fn, id)`: with a callback, the first entry with it and the id is removed; with an id alone,
     the first entry with that id; with neither (0 is no id), every entry.
     */
    method Off(fn: Option<nat>, id: Option<int>)
      modifies this`events
      ensures fn.Some? ==> events == CutFirst(old(events), Listener(0, fn.value, id, false))
      ensures fn == None && id.GetOr(0) != 0 ==> events == CutById(old(events), id)
      ensures fn == None && id.GetOr(0) == 0 ==> events == []
    {
      if fn == None && id.GetOr(0) == 0 {
        events := [];
        return;
      }
      ghost var l := Listener(0, fn.GetOr(0), id, false);
      var i := 0;
      while i < |events|
        invariant 0 <= i <= |events| && events == old(events)
        invariant forall j :: 0 <= j < i ==> if fn.Some? then !Twins(events[j], l) else events[j].id != id
      {
        if (fn == None || events[i].fn == fn.value) && events[i].id == id {
          if fn.Some? {
            CutAt(events, i, l);
          } else {
            CutByIdAt(events, i, id);
          }
          events := events[..i] + events[i + 1..];
          return;
        }
        i := i + 1;
      }
      if fn.Some? {
        CutNothing(events, l);
      } else {
        CutByIdAt(events, i, id);
      }
    }

    /** One round of `_emit`, at the i-th entry. */
    method Fire(i: nat, e: Emission)
      requires 0 < i <= |events|
      modifies this`events, this`scheduled
      ensures events == After(old(events), i, e)
      ensures scheduled == old(scheduled) + Shot(old(events), i, e)
    {
      var l := events[i - 1];
      if l.id == None || l.id == Some(0) || l.id == e.id || e.isLoad {
        scheduled := scheduled + [l];
        if l.once {
          CutSame(events, l, Listener(0, l.fn, l.id, false));
          Off(Some(l.fn), l.id);
        }
      }
    }

    /** The loop of `_emit`: every index it reads is in range, whatever `off` has cut out. */
    method Walk(e: Emission)
      modifies this`events, this`scheduled
      ensures events == Left(old(events), |old(events)|, e)
      ensures scheduled == old(scheduled) + Fired(old(events), |old(events)|, e)
    {
      ghost var left, fired := Left(events, |events|, e), scheduled + Fired(events, |events|, e);
      var i := |events| - 1;
      while i >= 0
        invariant -1 <= i < |events|
        invariant left == Left(events, i + 1, e)
        invariant fired == scheduled + Fired(events, i + 1, e)
      {
        ghost var before, shot := scheduled, Shot(events, i + 1, e);
        ghost var rest := Fired(After(events, i + 1, e), i, e);
        assert before + (shot + rest) == (before + shot) + rest;
        Fire(i + 1, e);
        i := i - 1;
      }
    }

    /** `_emit`, up to the load queue. */
    method Emit(e: Emission)
      modifies this`events, this`scheduled
      ensures events == Left(old(events), |old(events)|, e)
      ensures scheduled == old(scheduled) + Fired(old(events), |old(events)|, e)
      ensures Distinct(old(events)) ==> forall l: Listener ::
                var reached := match l.id case None => true case Some(k) => k == 0 || e.isLoad || e.id == Some(k);
                && multiset(scheduled[|old(scheduled)|..])[l] == (if l in old(events) && reached then 1 else 0)
                && (l in events <==> l in old(events) && (reached ==> !l.once))
    {
      ghost var was, calls := events, scheduled;
      Walk(e);
      assert scheduled[|calls|..] == Fired(was, |was|, e);
      if Distinct(was) {
        EachListener(was, e);
      }
    }
  }

  lemma {:induction false} CutSame(ls: seq<Listener>, l: Listener, m: Listener)
    requires Twins(l, m)
    ensures CutFirst(ls, l) == CutFirst(ls, m)
  {
    if ls != [] {
      CutSame(ls[1..], l, m);
    }
  }
}
