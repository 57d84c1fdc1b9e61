/**
 Can the context be suspended under a playing sound? It can, in exactly two ways: a deferred start comes
 when the context no longer runs or is about to be suspended, and a play finds the context running while
 an earlier suspension has not settled yet.
 */
module SuspensionCalm {
  import opened Wrappers
  import opened Suspension
  import opened SuspensionRuns

  // ---------------------------------------------------------------- the suspend timer

  /** The timer is not running while something plays. */
  predicate Quiescent(w: World) {
    AnyAudible(w) ==> w.live == {}
  }

  /** A deferred start comes while the timer runs: the one step that can leave a live timer under a playing sound. */
  predicate StartsUnderTimer(w: World, st: Step)
    requires Enabled(w, st)
  {
    st.StartDue? && w.live != {} &&
    var g := w.groups[st.group];
    g.registered && g.webAudio && g.sounds[g.due[0]].pooled
  }

  /** The step finds the context running and uninterrupted, if it is a play. */
  predicate Prompt(w: World, st: Step) {
    st.Play? ==> w.state == Running && !w.interrupted
  }

  predicate NothingDeferred(w: World) {
    forall i :: 0 <= i < |w.groups| ==> Idle(w.groups[i])
  }

  lemma EndedQuiescent(w: World, i: nat, j: nat)
    requires HasSound(w, i, j) && Inv(w) && Quiescent(w)
    ensures Quiescent(EndedSound(w, i, j))
  {
  }

  lemma PlayQuiescent(w: World, i: nat, j: nat, stand: Stand)
    requires HasSound(w, i, j) && Inv(w) && Quiescent(w)
    ensures Quiescent(Played(w, i, j, stand))
  {
    var a := AutoResumed(w);
    ResumeAsked(w);
    if stand.AtEnd? {
      EndedQuiescent(a, i, j);
    }
  }

  lemma StartDueQuiescent(w: World, i: nat)
    requires Inv(w) && Quiescent(w) && Enabled(w, StartDue(i))
    ensures Quiescent(StartedDue(w, i)) <==> !StartsUnderTimer(w, StartDue(i))
  {
    var g, s := w.groups[i], StartedDue(w, i);
    var j := g.due[0];
    assert s.groups[i].sounds[j] == g.sounds[j].(paused := false);
    if g.registered && g.webAudio && g.sounds[j].pooled {
      assert Audible(s.groups[i], s.groups[i].sounds[j]);
    }
  }

  /** Steps on one group that start nothing. */
  lemma SilentQuiescent(w: World, st: Step)
    requires Quiescent(w) && Enabled(w, st)
    requires st.Pause? || st.AddSound? || st.Drop? || st.Unload? || st.Create?
    ensures Quiescent(Do(w, st))
  {
  }

  /** Steps on the context alone. */
  lemma ContextQuiescent(w: World, st: Step)
    requires Inv(w) && Quiescent(w) && Enabled(w, st)
    requires st.Wake? || st.Interrupt? || st.SetAutoSuspend? || st.TimerFires? || st.SuspendDone? || st.ResumeDone?
    ensures Quiescent(Do(w, st))
  {
  }

  /** Exactly one kind of step can leave a suspend timer running under a playing sound. */
  lemma QuiescentKept(w: World, st: Step)
    requires Inv(w) && Quiescent(w) && Enabled(w, st)
    ensures Quiescent(Do(w, st)) <==> !StartsUnderTimer(w, st)
  {
    if st.Play? {
      PlayQuiescent(w, st.group, st.sound, st.stand);
    } else if st.Ended? {
      EndedQuiescent(w, st.group, st.sound);
    } else if st.StartDue? {
      StartDueQuiescent(w, st.group);
    } else if st.Pause? || st.AddSound? || st.Drop? || st.Unload? || st.Create? {
      SilentQuiescent(w, st);
    } else {
      ContextQuiescent(w, st);
    }
  }

  /** Every play of the run finds the context running. */
  predicate PromptRun(w: World, sts: seq<Step>)
    decreases |sts|
  {
    sts == [] || (Enabled(w, sts[0]) && Prompt(w, sts[0]) && PromptRun(Do(w, sts[0]), sts[1..]))
  }

  lemma {:induction false} PromptFollows(w: World, sts: seq<Step>)
    requires PromptRun(w, sts)
    ensures Follows(w, sts)
    decreases |sts|
  {
    if sts != [] {
      PromptFollows(Do(w, sts[0]), sts[1..]);
    }
  }

  predicate Idle(g: Group) {
    g.waiting == [] && g.due == []
  }

  /** A play that finds the context running defers nothing. */
  lemma PromptPlay(w: World, i: nat, j: nat, stand: Stand)
    requires NothingDeferred(w) && HasSound(w, i, j) && w.state == Running && !w.interrupted
    ensures NothingDeferred(Played(w, i, j, stand))
  {
  }

  lemma NothingGetsDeferred(w: World, st: Step)
    requires NothingDeferred(w) && Enabled(w, st) && Prompt(w, st)
    ensures NothingDeferred(Do(w, st))
  {
    if st.Play? {
      PromptPlay(w, st.group, st.sound, st.stand);
    } else {
      var d := Do(w, st);
      forall i | 0 <= i < |d.groups|
        ensures Idle(d.groups[i])
      {
        if i < |w.groups| {
          assert Idle(w.groups[i]);
        }
      }
    }
  }

  /** When all plays find the context running, no suspend timer is live while something plays, and never more than one. */
  lemma {:induction false} NoTimerUnderSound(w: World, sts: seq<Step>)
    requires Inv(w) && Quiescent(w) && NothingDeferred(w) && PromptRun(w, sts)
    ensures Follows(w, sts)
    ensures var r := Run(w, sts); Quiescent(r) && |r.live| <= 1
    decreases |sts|
  {
    PromptFollows(w, sts);
    if sts == [] {
      AtMostOne(w);
    } else {
      InvKept(w, sts[0]);
      QuiescentKept(w, sts[0]);
      NothingGetsDeferred(w, sts[0]);
      NoTimerUnderSound(Do(w, sts[0]), sts[1..]);
    }
  }

  // ---------------------------------------------------------------- the suspension itself

  /** While something plays the context runs, and neither a timer nor a suspension is under way to change that. */
  predicate Calm(w: World) {
    AnyAudible(w) ==> w.state == Running && w.live == {} && w.suspends == 0
  }

  /** The two ways to start a sound on a context that is, or is about to be, suspended. */
  predicate StartsBadly(w: World, st: Step)
    requires Enabled(w, st)
  {
    match st
    case StartDue(i) =>
      var g := w.groups[i];
      && g.registered && g.webAudio && g.sounds[g.due[0]].pooled
      && (w.state != Running || w.live != {} || w.suspends > 0)
    case Play(i, j, stand) =>
      && w.groups[i].registered && stand.BeforeEnd?
      && w.state == Running && !w.interrupted && w.suspends > 0
    case _ => false
  }

  lemma EndedCalm(w: World, i: nat, j: nat)
    requires HasSound(w, i, j) && Inv(w) && Calm(w)
    ensures Calm(EndedSound(w, i, j))
  {
    var p := WithPaused(w, i, j, true);
    Repaused(w, i, j, true);
    SuspendArmed(p);
    if AnyAudible(p) {
      var k, l :| 0 <= k < |p.groups| && 0 <= l < |p.groups[k].sounds| && Audible(p.groups[k], p.groups[k].sounds[l]);
      assert Audible(w.groups[k], w.groups[k].sounds[l]);
    }
  }

  lemma StartedIsAudible(w: World, i: nat, j: nat)
    requires HasSound(w, i, j) && w.groups[i].registered && w.groups[i].webAudio && w.groups[i].sounds[j].pooled
    ensures AnyAudible(Started(w, i, j))
  {
    var s := Started(w, i, j);
    assert Audible(s.groups[i], s.groups[i].sounds[j]);
  }

  /** A start that is not heard makes nothing audible. */
  lemma StartedUnheard(w: World, i: nat, j: nat)
    requires HasSound(w, i, j) && !(w.groups[i].registered && w.groups[i].webAudio && w.groups[i].sounds[j].pooled)
    ensures AnyAudible(Started(w, i, j)) ==> AnyAudible(w)
  {
    var s := Started(w, i, j);
    if AnyAudible(s) {
      var k, l :| 0 <= k < |s.groups| && 0 <= l < |s.groups[k].sounds| && Audible(s.groups[k], s.groups[k].sounds[l]);
      assert Audible(w.groups[k], w.groups[k].sounds[l]);
    }
  }

  lemma StartCalm(w: World, i: nat, j: nat)
    requires HasSound(w, i, j) && Calm(w)
    ensures var heard := w.groups[i].registered && w.groups[i].webAudio && w.groups[i].sounds[j].pooled;
            Calm(Started(w, i, j)) <==> !(heard && (w.state != Running || w.live != {} || w.suspends > 0))
  {
    if w.groups[i].registered && w.groups[i].webAudio && w.groups[i].sounds[j].pooled {
      StartedIsAudible(w, i, j);
    } else {
      StartedUnheard(w, i, j);
    }
  }

  lemma PlayCalm(w: World, i: nat, j: nat, stand: Stand)
    requires Inv(w) && Calm(w) && Enabled(w, Play(i, j, stand))
    ensures Calm(Played(w, i, j, stand)) <==> !StartsBadly(w, Play(i, j, stand))
  {
    var a := AutoResumed(w);
    ResumeAsked(w);
    assert AnyAudible(a) == AnyAudible(w) && Calm(a);
    if stand.AtEnd? {
      EndedCalm(a, i, j);
    } else if stand.BeforeEnd? && a.state == Running && !a.interrupted {
      StartCalm(a, i, j);
    } else if stand.BeforeEnd? {
      SameSounds(a, Deferred(a, i, j));
    }
  }

  /** Audibility is a matter of the sounds and of what is registered. */
  lemma SameSounds(a: World, b: World)
    requires |b.groups| == |a.groups|
    requires forall k :: 0 <= k < |a.groups| ==>
               && b.groups[k].sounds == a.groups[k].sounds && b.groups[k].registered == a.groups[k].registered
               && b.groups[k].webAudio == a.groups[k].webAudio
    ensures AnyAudible(a) == AnyAudible(b)
  {
    if AnyAudible(a) {
      var k, l :| 0 <= k < |a.groups| && 0 <= l < |a.groups[k].sounds| && Audible(a.groups[k], a.groups[k].sounds[l]);
      assert Audible(b.groups[k], b.groups[k].sounds[l]);
    }
    if AnyAudible(b) {
      var k, l :| 0 <= k < |b.groups| && 0 <= l < |b.groups[k].sounds| && Audible(b.groups[k], b.groups[k].sounds[l]);
      assert Audible(a.groups[k], a.groups[k].sounds[l]);
    }
  }

  lemma StartDueCalm(w: World, i: nat)
    requires Inv(w) && Calm(w) && Enabled(w, StartDue(i))
    ensures Calm(StartedDue(w, i)) <==> !StartsBadly(w, StartDue(i))
  {
    var g := w.groups[i];
    var taken := WithGroup(w, i, g.(due := g.due[1..]));
    SameSounds(w, taken);
    StartCalm(taken, i, g.due[0]);
  }

  /** Steps on one group that start nothing. */
  lemma SilentCalm(w: World, st: Step)
    requires Calm(w) && Enabled(w, st)
    requires st.Pause? || st.AddSound? || st.Drop? || st.Unload?
    ensures Calm(Do(w, st))
  {
    var d, n := Do(w, st), st.group;
    if AnyAudible(d) {
      var k, l :| 0 <= k < |d.groups| && 0 <= l < |d.groups[k].sounds| && Audible(d.groups[k], d.groups[k].sounds[l]);
      assert k != n ==> d.groups[k] == w.groups[k];
      assert l < |w.groups[k].sounds| && Audible(w.groups[k], w.groups[k].sounds[l]);
    }
  }

  lemma CreateCalm(w: World, webAudio: bool)
    requires Calm(w)
    ensures Calm(Do(w, Create(webAudio)))
  {
    var d := Do(w, Create(webAudio));
    if AnyAudible(d) {
      var k, l :| 0 <= k < |d.groups| && 0 <= l < |d.groups[k].sounds| && Audible(d.groups[k], d.groups[k].sounds[l]);
      assert k < |w.groups| && Audible(w.groups[k], w.groups[k].sounds[l]);
    }
  }

  lemma ContextCalm(w: World, st: Step)
    requires Inv(w) && Calm(w) && Enabled(w, st)
    requires st.Wake? || st.Interrupt? || st.SetAutoSuspend? || st.TimerFires? || st.SuspendDone? || st.ResumeDone?
    ensures Calm(Do(w, st))
  {
    if st.Wake? {
      ResumeAsked(w);
    }
    SameSounds(w, Do(w, st));
  }

  /** Every step keeps the context running under what plays, except exactly those two starts. */
  lemma CalmKept(w: World, st: Step)
    requires Inv(w) && Calm(w) && Enabled(w, st)
    ensures Calm(Do(w, st)) <==> !StartsBadly(w, st)
  {
    if st.Play? {
      PlayCalm(w, st.group, st.sound, st.stand);
    } else if st.StartDue? {
      StartDueCalm(w, st.group);
    } else if st.Ended? {
      EndedCalm(w, st.group, st.sound);
    } else if st.Create? {
      CreateCalm(w, st.webAudio);
    } else if st.Pause? || st.AddSound? || st.Drop? || st.Unload? {
      SilentCalm(w, st);
    } else {
      ContextCalm(w, st);
    }
  }

  predicate CalmThroughout(w: World, sts: seq<Step>)
    requires Follows(w, sts)
    decreases |sts|
  {
    Calm(w) && (sts == [] || CalmThroughout(Do(w, sts[0]), sts[1..]))
  }

  predicate AvoidsBadStarts(w: World, sts: seq<Step>)
    requires Follows(w, sts)
    decreases |sts|
  {
    sts == [] || (!StartsBadly(w, sts[0]) && AvoidsBadStarts(Do(w, sts[0]), sts[1..]))
  }

  /** Over whole runs the context keeps running under what plays if and only if neither kind of start happens. */
  lemma {:induction false} CalmUnlessBadStart(w: World, sts: seq<Step>)
    requires Inv(w) && Calm(w) && Follows(w, sts)
    ensures CalmThroughout(w, sts) <==> AvoidsBadStarts(w, sts)
    decreases |sts|
  {
    if sts != [] {
      CalmKept(w, sts[0]);
      InvKept(w, sts[0]);
      var next := Do(w, sts[0]);
      if Calm(next) {
        CalmUnlessBadStart(next, sts[1..]);
      } else {
        assert !CalmThroughout(next, sts[1..]);
      }
    }
  }

  lemma OneStepSuspends(w: World, st: Step)
    requires AnyAudible(w) && Enabled(w, st) && (st.SuspendDone? || (st.TimerFires? && w.autoSuspend))
    ensures var sts := [st] + [];
            Follows(w, sts) && AnyAudible(Run(w, sts)) && Run(w, sts).state != Running
  {
    SameSounds(w, Do(w, st));
    FollowsOne(w, st, []);
  }

  /** And after such a start at most one step of the browser leaves the context not running under a playing sound. */
  lemma BadStartSuspends(w: World) returns (sts: seq<Step>)
    requires Inv(w) && AnyAudible(w) && !Calm(w)
    requires w.autoSuspend || w.state != Running || w.suspends > 0
    ensures |sts| <= 1 && Follows(w, sts) && AnyAudible(Run(w, sts)) && Run(w, sts).state != Running
  {
    if w.state != Running {
      sts := [];
    } else if w.suspends > 0 {
      sts := [SuspendDone] + [];
      OneStepSuspends(w, SuspendDone);
    } else {
      var t :| t in w.live;
      sts := [TimerFires(t)] + [];
      OneStepSuspends(w, TimerFires(t));
    }
  }

  /** Every play of the run finds the context running with no suspension unsettled. */
  predicate SettledRun(w: World, sts: seq<Step>)
    decreases |sts|
  {
    sts == [] || (
      && Enabled(w, sts[0]) && Prompt(w, sts[0]) && (sts[0].Play? ==> w.suspends == 0)
      && SettledRun(Do(w, sts[0]), sts[1..]))
  }

  /** Then the context runs whenever something plays, and nothing is under way to suspend it. */
  lemma {:induction false} NeverSuspendsPlayingSound(w: World, sts: seq<Step>)
    requires Inv(w) && Calm(w) && NothingDeferred(w) && SettledRun(w, sts)
    ensures Follows(w, sts) && Calm(Run(w, sts)) && |Run(w, sts).live| <= 1
    decreases |sts|
  {
    if sts == [] {
      AtMostOne(w);
    } else {
      InvKept(w, sts[0]);
      assert sts[0].StartDue? ==> Idle(w.groups[sts[0].group]);
      CalmKept(w, sts[0]);
      NothingGetsDeferred(w, sts[0]);
      NeverSuspendsPlayingSound(Do(w, sts[0]), sts[1..]);
    }
  }

  // ---------------------------------------------------------------- why the exceptions are needed

  /** The run below, state by state: one group of two sounds. */
  function Scene(state: ContextState, timer: Option<nat>, timers: nat, suspends: nat, resumes: nat, g: Group): World {
    World(state, false, true, timer, if timer.Some? then {timer.value} else {}, timers, false, suspends, resumes, [g])
  }

  function Pair(first: bool, lock: bool, waiting: seq<nat>, due: seq<nat>): Group {
    Group(true, true, lock, [Sound(!first, true), Sound(true, true)], waiting, due)
  }

  lemma SceneBuilt()
    ensures var w := Initial(false);
            Do(Do(Do(w, Create(true)), AddSound(0)), AddSound(0)) == Scene(Suspended, Some(0), 1, 0, 0, Pair(false, false, [], []))
  {
    var w := Initial(false);
    var g := Group(true, true, false, [], [], []);
    assert Do(w, Create(true)) == w.(groups := [g]);
    var w1 := w.(groups := [g]);
    var w2 := w.(groups := [g.(sounds := [Sound(true, true)])]);
    assert [] + [Sound(true, true)] == [Sound(true, true)];
    assert Do(w1, AddSound(0)) == w2;
    assert [Sound(true, true)] + [Sound(true, true)] == [Sound(true, true), Sound(true, true)];
  }

  lemma SceneDeferred()
    ensures Do(Scene(Suspended, Some(0), 1, 0, 0, Pair(false, false, [], [])), Play(0, 0, BeforeEnd))
         == Scene(Suspended, None, 1, 0, 1, Pair(false, true, [0], []))
  {
    var a := AutoResumed(Scene(Suspended, Some(0), 1, 0, 0, Pair(false, false, [], [])));
    assert a.live == {};
    assert [] + [0] == [0];
  }

  lemma SceneResumed()
    ensures Do(Scene(Suspended, None, 1, 0, 1, Pair(false, true, [0], [])), ResumeDone)
         == Scene(Running, None, 1, 0, 0, Pair(false, true, [], [0]))
  {
    assert Reverse([0]) == [0];
    assert AllWoken([Pair(false, true, [0], [])]) == [Pair(false, true, [], [0])];
  }

  lemma SceneArmed()
    ensures Do(Scene(Running, None, 1, 0, 0, Pair(false, true, [], [0])), Play(0, 1, AtEnd))
         == Scene(Running, Some(1), 2, 0, 0, Pair(false, true, [], [0]))
  {
    var w := Scene(Running, None, 1, 0, 0, Pair(false, true, [], [0]));
    var g := w.groups[0];
    assert g.sounds[1 := g.sounds[1].(paused := true)] == g.sounds;
    assert WithPaused(w, 0, 1, true) == w;
    assert {} + {1} == {1};
  }

  lemma SceneStarted()
    ensures Do(Scene(Running, Some(1), 2, 0, 0, Pair(false, true, [], [0])), StartDue(0))
         == Scene(Running, Some(1), 2, 0, 0, Pair(true, false, [], []))
  {
    var w := Scene(Running, Some(1), 2, 0, 0, Pair(false, true, [], [0]));
    var g1, g2 := Pair(false, true, [], []), Pair(false, false, [], []);
    assert w.groups[0].due[1..] == [];
    assert g2.sounds[0 := Sound(false, true)] == Pair(true, false, [], []).sounds;
  }

  lemma SceneSuspending()
    ensures Do(Scene(Running, Some(1), 2, 0, 0, Pair(true, false, [], [])), TimerFires(1))
         == Scene(Suspending, None, 2, 1, 0, Pair(true, false, [], []))
  {
  }

  /**
   Why the exception is needed: a play is deferred, the context resumes, another sound of the group is
   played at its end and arms the timer, and only then does the deferred start run. The timer fires
   and the context is suspended under the sound that has just started.
   */
  lemma SuspendsUnderDeferredPlay()
    ensures var sts := [Create(true)] + ([AddSound(0)] + ([AddSound(0)] + ([Play(0, 0, BeforeEnd)] + ([ResumeDone]
                       + ([Play(0, 1, AtEnd)] + ([StartDue(0)] + ([TimerFires(1)] + [])))))));
            && Follows(Initial(false), sts)
            && AnyAudible(Run(Initial(false), sts)) && Run(Initial(false), sts).state == Suspending
  {
    SceneBuilt();
    SceneDeferred();
    SceneResumed();
    SceneArmed();
    SceneStarted();
    SceneSuspending();
    var w := Initial(false);
    var w1 := Do(w, Create(true));
    var w2 := Do(w1, AddSound(0));
    var w8 := Scene(Suspending, None, 2, 1, 0, Pair(true, false, [], []));
    assert Audible(w8.groups[0], w8.groups[0].sounds[0]);
    var s8 := [TimerFires(1)] + [];
    FollowsOne(Scene(Running, Some(1), 2, 0, 0, Pair(true, false, [], [])), TimerFires(1), []);
    var s7 := [StartDue(0)] + s8;
    FollowsOne(Scene(Running, Some(1), 2, 0, 0, Pair(false, true, [], [0])), StartDue(0), s8);
    var s6 := [Play(0, 1, AtEnd)] + s7;
    FollowsOne(Scene(Running, None, 1, 0, 0, Pair(false, true, [], [0])), Play(0, 1, AtEnd), s7);
    var s5 := [ResumeDone] + s6;
    FollowsOne(Scene(Suspended, None, 1, 0, 1, Pair(false, true, [0], [])), ResumeDone, s6);
    var s4 := [Play(0, 0, BeforeEnd)] + s5;
    FollowsOne(Scene(Suspended, Some(0), 1, 0, 0, Pair(false, false, [], [])), Play(0, 0, BeforeEnd), s5);
    var s3 := [AddSound(0)] + s4;
    FollowsOne(w2, AddSound(0), s4);
    FollowsOne(w1, AddSound(0), s3);
    FollowsOne(w, Create(true), [AddSound(0)] + s3);
  }

  /** The next run, state by state: one group of one sound, and no timer unless there is one to name. */
  function Solo(state: ContextState, interrupted: bool, timer: Option<nat>, timers: nat, suspends: nat, resumes: nat,
                playing: bool): World {
    World(state, interrupted, true, timer, if timer.Some? then {timer.value} else {}, timers, false, suspends, resumes,
          [Group(true, true, false, [Sound(!playing, true)], [], [])])
  }

  lemma SoloBuilt()
    ensures Do(Do(Initial(true), Create(true)), AddSound(0)) == Solo(Running, false, Some(0), 1, 0, 0, false)
  {
    var w := Do(Initial(true), Create(true));
    assert w.groups == [Group(true, true, false, [], [], [])];
    assert [] + [Sound(true, true)] == [Sound(true, true)];
  }

  lemma SoloPlays(timer: Option<nat>, timers: nat, suspends: nat)
    ensures Do(Solo(Running, false, timer, timers, suspends, 0, false), Play(0, 0, BeforeEnd))
         == Solo(Running, false, None, timers, suspends, 0, true)
  {
    var w := Solo(Running, false, timer, timers, suspends, 0, false);
    var a := AutoResumed(w);
    assert a == Solo(Running, false, None, timers, suspends, 0, false);
    var g := a.groups[0];
    assert g.(playLock := false) == g && a.groups[0 := g] == a.groups;
    assert g.sounds[0 := Sound(false, true)] == [Sound(false, true)];
  }

  lemma SoloEnds()
    ensures Do(Solo(Running, false, None, 1, 0, 1, true), Ended(0, 0, false)) == Solo(Running, false, Some(1), 2, 0, 1, false)
  {
    var p := WithPaused(Solo(Running, false, None, 1, 0, 1, true), 0, 0, true);
    assert p.groups[0].sounds == [Sound(true, true)];
    assert !AnyAudible(p) && {} + {1} == {1};
  }

  lemma SoloSettles()
    ensures Do(Solo(Running, false, Some(1), 2, 0, 1, false), TimerFires(1)) == Solo(Suspending, false, None, 2, 1, 1, false)
    ensures Do(Solo(Suspending, false, None, 2, 1, 1, false), ResumeDone) == Solo(Running, false, None, 2, 1, 0, false)
    ensures Do(Solo(Running, false, None, 2, 1, 0, true), SuspendDone) == Solo(Suspended, false, None, 2, 0, 0, true)
  {
    var g := Group(true, true, false, [Sound(true, true)], [], []);
    assert g.due + Reverse(g.waiting) == [] && Woken(g) == g;
    assert AllWoken([g]) == [g];
  }

  lemma PromptOne(w: World, st: Step, rest: seq<Step>)
    requires Enabled(w, st) && Prompt(w, st) && PromptRun(Do(w, st), rest) && Follows(Do(w, st), rest)
    ensures PromptRun(w, [st] + rest) && Follows(w, [st] + rest) && Run(w, [st] + rest) == Run(Do(w, st), rest)
  {
    assert ([st] + rest)[1..] == rest;
  }

  /** The resume settles before the suspension, a play comes in between. */
  function Crossing(): seq<Step> {
    [TimerFires(1)] + ([ResumeDone] + ([Play(0, 0, BeforeEnd)] + ([SuspendDone] + [])))
  }

  lemma CrossingSuspends()
    ensures var w, sts := Solo(Running, false, Some(1), 2, 0, 1, false), Crossing();
            PromptRun(w, sts) && Follows(w, sts) && Run(w, sts) == Solo(Suspended, false, None, 2, 0, 0, true)
  {
    SoloPlays(None, 2, 1);
    SoloSettles();
    PromptOne(Solo(Running, false, None, 2, 1, 0, true), SuspendDone, []);
    PromptOne(Solo(Running, false, None, 2, 1, 0, false), Play(0, 0, BeforeEnd), [SuspendDone] + []);
    PromptOne(Solo(Suspending, false, None, 2, 1, 1, false), ResumeDone, [Play(0, 0, BeforeEnd)] + ([SuspendDone] + []));
    PromptOne(Solo(Running, false, Some(1), 2, 0, 1, false), TimerFires(1),
              [ResumeDone] + ([Play(0, 0, BeforeEnd)] + ([SuspendDone] + [])));
  }

  /** A touch during an interruption leaves a resume pending, then the only sound ends. */
  function Interlude(): seq<Step> {
    [Interrupt(true)] + ([Wake] + ([Interrupt(false)] + ([Ended(0, 0, false)] + Crossing())))
  }

  lemma InterludeSuspends()
    ensures var w, sts := Solo(Running, false, None, 1, 0, 0, true), Interlude();
            PromptRun(w, sts) && Follows(w, sts) && Run(w, sts) == Solo(Suspended, false, None, 2, 0, 0, true)
  {
    CrossingSuspends();
    SoloEnds();
    PromptOne(Solo(Running, false, None, 1, 0, 1, true), Ended(0, 0, false), Crossing());
    PromptOne(Solo(Running, true, None, 1, 0, 1, true), Interrupt(false), [Ended(0, 0, false)] + Crossing());
    PromptOne(Solo(Running, true, None, 1, 0, 0, true), Wake, [Interrupt(false)] + ([Ended(0, 0, false)] + Crossing()));
    PromptOne(Solo(Running, false, None, 1, 0, 0, true), Interrupt(true),
              [Wake] + ([Interrupt(false)] + ([Ended(0, 0, false)] + Crossing())));
  }

  /**
   Why finding the context running is not enough: a touch asks for a resume while the context is
   interrupted, the only sound ends, the timer fires, and the resume settles before the suspension does.
   The next play finds the context running, and the suspension settles under it.
   */
  lemma SuspendsUnderPromptPlay()
    ensures var sts := [Create(true)] + ([AddSound(0)] + ([Play(0, 0, BeforeEnd)] + Interlude()));
            && PromptRun(Initial(true), sts) && Follows(Initial(true), sts)
            && AnyAudible(Run(Initial(true), sts)) && Run(Initial(true), sts).state == Suspended
  {
    InterludeSuspends();
    SoloBuilt();
    SoloPlays(Some(0), 1, 0);
    var w := Initial(true);
    var end := Solo(Suspended, false, None, 2, 0, 0, true);
    assert Audible(end.groups[0], end.groups[0].sounds[0]);
    PromptOne(Solo(Running, false, Some(0), 1, 0, 0, false), Play(0, 0, BeforeEnd), Interlude());
    PromptOne(Do(w, Create(true)), AddSound(0), [Play(0, 0, BeforeEnd)] + Interlude());
    PromptOne(w, Create(true), [AddSound(0)] + ([Play(0, 0, BeforeEnd)] + Interlude()));
  }
}
