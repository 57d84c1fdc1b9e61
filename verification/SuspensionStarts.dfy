/**
 Starts that wait for the context: each is registered at one call of `play` and runs later, with the
 position, sprite and timeout of that call. When the sound has been started in the meantime, the late
 start overwrites its end timer. This module proves when a late start finds its sound still paused.
 */
module SuspensionStarts {
  import opened Wrappers
  import opened Suspension
  import opened SuspensionRuns
  import opened SuspensionCalm

  /** The sounds whose start is still to come. */
  function ToStart(g: Group): seq<nat> {
    g.due + g.waiting
  }

  /** Each start to come is the only one of its sound, which is paused until then. */
  predicate Unstarted(g: Group) {
    var js := ToStart(g);
    && (forall k :: 0 <= k < |js| ==> js[k] < |g.sounds| && g.sounds[js[k]].paused)
    && (forall k, l :: 0 <= k < l < |js| ==> js[k] != js[l])
  }

  predicate StartsOnce(w: World) {
    forall i :: 0 <= i < |w.groups| ==> Unstarted(w.groups[i])
  }

  /** A play, before its end, of a sound that is still to be started. */
  predicate PlaysAgain(w: World, st: Step)
    requires Enabled(w, st)
  {
    st.Play? && st.stand.BeforeEnd? && st.sound in ToStart(w.groups[st.group])
  }

  // ---------------------------------------------------------------- one step

  lemma {:induction false} ReverseDistinct(xs: seq<nat>)
    requires forall k, l :: 0 <= k < l < |xs| ==> xs[k] != xs[l]
    ensures |Reverse(xs)| == |xs| && forall k, l :: 0 <= k < l < |xs| ==> Reverse(xs)[k] != Reverse(xs)[l]
  {
    ReverseMembers(xs);
    if xs != [] {
      var rest := xs[1..];
      ReverseDistinct(rest);
      ReverseMembers(rest);
      assert xs[0] !in rest;
      forall k | 0 <= k < |rest|
        ensures Reverse(rest)[k] in rest
      {
        assert Reverse(rest)[k] in Reverse(rest);
      }
    }
  }

  lemma WokenUnstarted(g: Group)
    requires Unstarted(g)
    ensures Unstarted(Woken(g))
  {
    var r := Reverse(g.waiting);
    var js := ToStart(g);
    assert forall k :: 0 <= k < |g.waiting| ==> g.waiting[k] == js[|g.due| + k];
    assert forall k :: 0 <= k < |g.due| ==> g.due[k] == js[k];
    ReverseMembers(g.waiting);
    ReverseDistinct(g.waiting);
    forall k | 0 <= k < |r|
      ensures r[k] in g.waiting
    {
      assert r[k] in r;
    }
    if g.registered {
      assert ToStart(Woken(g)) == g.due + r;
    }
  }

  /** Pausing a sound, or taking it from the pool, starts nothing. */
  lemma StillUnstarted(g: Group, h: Group)
    requires Unstarted(g) && ToStart(h) == ToStart(g) && |h.sounds| >= |g.sounds|
    requires forall j :: 0 <= j < |g.sounds| && g.sounds[j].paused ==> h.sounds[j].paused
    ensures Unstarted(h)
  {
  }

  lemma StartedUnstarted(g: Group, h: Group, j: nat)
    requires Unstarted(g) && j < |g.sounds| && ToStart(h) == ToStart(g)
    requires h.sounds == g.sounds[j := g.sounds[j].(paused := false)]
    ensures Unstarted(h) <==> j !in ToStart(g)
  {
    if j in ToStart(g) {
      var k :| 0 <= k < |ToStart(g)| && ToStart(g)[k] == j;
      assert !h.sounds[ToStart(h)[k]].paused;
    }
  }

  lemma DeferredUnstarted(g: Group, j: nat)
    requires Unstarted(g) && j < |g.sounds| && g.sounds[j].paused
    ensures Unstarted(g.(playLock := true, waiting := g.waiting + [j])) <==> j !in ToStart(g)
  {
    var h := g.(playLock := true, waiting := g.waiting + [j]);
    assert ToStart(h) == ToStart(g) + [j];
    if j in ToStart(g) {
      var k :| 0 <= k < |ToStart(g)| && ToStart(g)[k] == j;
      assert ToStart(h)[k] == ToStart(h)[|ToStart(g)|];
    }
  }

  /** What one group's change means for all. */
  lemma OneGroup(w: World, r: World, i: nat)
    requires StartsOnce(w) && i < |w.groups| && |r.groups| == |w.groups|
    requires forall k :: 0 <= k < |w.groups| && k != i ==> r.groups[k] == w.groups[k]
    ensures StartsOnce(r) <==> Unstarted(r.groups[i])
  {
  }

  lemma PlayStartsOnce(w: World, i: nat, j: nat, stand: Stand)
    requires StartsOnce(w) && Enabled(w, Play(i, j, stand))
    ensures StartsOnce(Played(w, i, j, stand)) <==> !PlaysAgain(w, Play(i, j, stand))
  {
    var r := Played(w, i, j, stand);
    var g := w.groups[i];
    assert AutoResumed(w).groups == w.groups && Unstarted(g);
    OneGroup(w, r, i);
    if stand.AtEnd? {
      StillUnstarted(g, r.groups[i]);
    } else if stand.BeforeEnd? {
      if AutoResumed(w).state == Running && !AutoResumed(w).interrupted {
        StartedUnstarted(g, r.groups[i], j);
      } else {
        DeferredUnstarted(g, j);
      }
    }
  }

  lemma StartDueStartsOnce(w: World, i: nat)
    requires StartsOnce(w) && Enabled(w, StartDue(i))
    ensures StartsOnce(StartedDue(w, i))
    ensures w.groups[i].sounds[w.groups[i].due[0]].paused
  {
    var g := w.groups[i];
    var j, js := g.due[0], ToStart(g);
    var fewer := g.(due := g.due[1..]);
    assert ToStart(fewer) == js[1..];
    assert forall k :: 0 <= k < |js[1..]| ==> js[1..][k] == js[k + 1];
    assert js[0] == j;
    assert Unstarted(g) && Unstarted(fewer) && j !in ToStart(fewer);
    var r := StartedDue(w, i);
    StartedUnstarted(fewer, r.groups[i], j);
    OneGroup(w, r, i);
  }

  /** Steps on one group that start nothing. */
  lemma QuietStartsOnce(w: World, st: Step)
    requires StartsOnce(w) && Enabled(w, st)
    requires st.Pause? || st.Ended? || st.AddSound? || st.Drop? || st.Unload?
    ensures StartsOnce(Do(w, st))
  {
    var r := Do(w, st);
    var g, h := w.groups[st.group], r.groups[st.group];
    assert Unstarted(g);
    StillUnstarted(g, h);
    OneGroup(w, r, st.group);
  }

  /** Steps on the context alone. */
  lemma ContextStartsOnce(w: World, st: Step)
    requires StartsOnce(w) && Enabled(w, st)
    requires !st.Play? && !st.StartDue? && !st.Pause? && !st.Ended? && !st.AddSound? && !st.Drop? && !st.Unload?
    ensures StartsOnce(Do(w, st))
  {
    var r := Do(w, st);
    forall i | 0 <= i < |r.groups|
      ensures Unstarted(r.groups[i])
    {
      if st.ResumeDone? {
        WokenUnstarted(w.groups[i]);
      }
    }
  }

  /** Every start to come stays the only one of a paused sound, except after exactly that kind of play. */
  lemma StartsOnceKept(w: World, st: Step)
    requires StartsOnce(w) && Enabled(w, st)
    ensures StartsOnce(Do(w, st)) <==> !PlaysAgain(w, st)
    ensures st.StartDue? ==> w.groups[st.group].sounds[w.groups[st.group].due[0]].paused
  {
    if st.Play? {
      PlayStartsOnce(w, st.group, st.sound, st.stand);
    } else if st.StartDue? {
      StartDueStartsOnce(w, st.group);
    } else if st.Pause? || st.Ended? || st.AddSound? || st.Drop? || st.Unload? {
      QuietStartsOnce(w, st);
    } else {
      ContextStartsOnce(w, st);
    }
  }

  // ---------------------------------------------------------------- runs

  predicate StartsOnceThroughout(w: World, sts: seq<Step>)
    requires Follows(w, sts)
    decreases |sts|
  {
    StartsOnce(w) && (sts == [] || StartsOnceThroughout(Do(w, sts[0]), sts[1..]))
  }

  predicate NeverPlaysAgain(w: World, sts: seq<Step>)
    requires Follows(w, sts)
    decreases |sts|
  {
    sts == [] || (!PlaysAgain(w, sts[0]) && NeverPlaysAgain(Do(w, sts[0]), sts[1..]))
  }

  /** Over whole runs every start to come stays the only one of a paused sound, and so finds it paused, if and only if no
      sound is played again before its start. */
  lemma {:induction false} StartsOnceUnlessPlayedAgain(w: World, sts: seq<Step>)
    requires StartsOnce(w) && Follows(w, sts)
    ensures StartsOnceThroughout(w, sts) <==> NeverPlaysAgain(w, sts)
    decreases |sts|
  {
    if sts != [] {
      StartsOnceKept(w, sts[0]);
      var next := Do(w, sts[0]);
      if StartsOnce(next) {
        StartsOnceUnlessPlayedAgain(next, sts[1..]);
      } else {
        assert !StartsOnceThroughout(next, sts[1..]);
      }
    }
  }

  // ---------------------------------------------------------------- the exception

  lemma SceneBothWait()
    ensures Do(Scene(Suspended, None, 1, 0, 1, Pair(false, true, [0], [])), Play(0, 1, BeforeEnd))
         == Scene(Suspended, None, 1, 0, 2, Pair(false, true, [0, 1], []))
  {
    assert [0] + [1] == [0, 1];
  }

  lemma SceneBothDue()
    ensures Do(Scene(Suspended, None, 1, 0, 2, Pair(false, true, [0, 1], [])), ResumeDone)
         == Scene(Running, None, 1, 0, 1, Pair(false, true, [], [1, 0]))
  {
    assert [0, 1][1..] == [1] && Reverse([1]) == [1] && Reverse([0, 1]) == [1, 0];
    var waiting, due := Pair(false, true, [0, 1], []), Pair(false, true, [], [1, 0]);
    assert [] + Reverse(waiting.waiting) == due.due && Woken(waiting) == due;
    assert AllWoken([waiting]) == [due];
  }

  /** The second sound plays, the lock is gone, and the first one's start is still due. */
  function Unlocked(first: bool): Group {
    Group(true, true, false, [Sound(!first, true), Sound(false, true)], [], [0])
  }

  lemma SceneOneStarted()
    ensures Do(Scene(Running, None, 1, 0, 1, Pair(false, true, [], [1, 0])), StartDue(0))
         == Scene(Running, None, 1, 0, 1, Unlocked(false))
    ensures Do(Scene(Running, None, 1, 0, 1, Unlocked(false)), Play(0, 0, BeforeEnd))
         == Scene(Running, None, 1, 0, 1, Unlocked(true))
  {
    assert [1, 0][1..] == [0];
    var both, second, first := Pair(false, true, [], [1, 0]), Unlocked(false), Unlocked(true);
    assert both.sounds[1 := Sound(false, true)] == second.sounds && second.sounds[0 := Sound(false, true)] == first.sounds;
    assert [both][0 := second] == [second] && [second][0 := first] == [first];
    assert Started(Scene(Running, None, 1, 0, 1, both.(due := [0])), 0, 1).groups[0] == second;
    assert Started(Scene(Running, None, 1, 0, 1, second), 0, 0).groups[0] == first;
  }

  /**
   Why the exception is needed: two plays wait, the context resumes, and the start that runs first drops the
   lock for both. The other sound is played once more and starts; its late start then finds it playing.
   */
  lemma LateStartUnderPlayingSound()
    ensures var sts := [Create(true)] + ([AddSound(0)] + ([AddSound(0)] + ([Play(0, 0, BeforeEnd)]
                       + ([Play(0, 1, BeforeEnd)] + ([ResumeDone] + ([StartDue(0)] + ([Play(0, 0, BeforeEnd)] + [])))))));
            && Follows(Initial(false), sts)
            && var r := Run(Initial(false), sts);
            Enabled(r, StartDue(0)) && !r.groups[0].sounds[r.groups[0].due[0]].paused
  {
    SceneBuilt();
    SceneDeferred();
    SceneBothWait();
    SceneBothDue();
    SceneOneStarted();
    var w := Initial(false);
    var w1 := Do(w, Create(true));
    var w2 := Do(w1, AddSound(0));
    var s8 := [Play(0, 0, BeforeEnd)] + [];
    FollowsOne(Scene(Running, None, 1, 0, 1, Unlocked(false)), Play(0, 0, BeforeEnd), []);
    var s7 := [StartDue(0)] + s8;
    FollowsOne(Scene(Running, None, 1, 0, 1, Pair(false, true, [], [1, 0])), StartDue(0), s8);
    var s6 := [ResumeDone] + s7;
    FollowsOne(Scene(Suspended, None, 1, 0, 2, Pair(false, true, [0, 1], [])), ResumeDone, s7);
    var s5 := [Play(0, 1, BeforeEnd)] + s6;
    FollowsOne(Scene(Suspended, None, 1, 0, 1, Pair(false, true, [0], [])), Play(0, 1, BeforeEnd), s6);
    var s4 := [Play(0, 0, BeforeEnd)] + s5;
    FollowsOne(Scene(Suspended, Some(0), 1, 0, 0, Pair(false, false, [], [])), Play(0, 0, BeforeEnd), s5);
    var s3 := [AddSound(0)] + s4;
    FollowsOne(w2, AddSound(0), s4);
    FollowsOne(w1, AddSound(0), s3);
    FollowsOne(w, Create(true), [AddSound(0)] + s3);
  }
}
