/**
 What the suspend/resume protocol keeps, in every interleaving: no play that waits for 'resume' is
 forgotten, a locked group can be unlocked, and at most one suspend timer is live.
 */
module SuspensionRuns {
  import opened Wrappers
  import opened Suspension

  // ---------------------------------------------------------------- invariants

  predicate SomeoneWaits(w: World) {
    exists i :: 0 <= i < |w.groups| && w.groups[i].registered && w.groups[i].waiting != []
  }

  /** Someone waiting for 'resume' will be woken: a resume is pending, or a suspend that will ask for one. */
  predicate WakeUpPending(w: World) {
    w.resumes > 0 || (w.state == Suspending && w.resumeAfterSuspend && w.suspends > 0)
  }

  /** A locked group has a start that will unlock it, registered or already scheduled. */
  predicate Unlockable(g: Group) {
    g.registered && g.playLock ==> g.waiting != [] || g.due != []
  }

  predicate StartsExist(g: Group) {
    && (forall k :: 0 <= k < |g.waiting| ==> g.waiting[k] < |g.sounds|)
    && (forall k :: 0 <= k < |g.due| ==> g.due[k] < |g.sounds|)
  }

  /** The only live suspend timer is the one remembered. */
  predicate OneTimer(w: World) {
    forall t :: t in w.live ==> w.suspendTimer == Some(t)
  }

  predicate GroupOk(g: Group) {
    Unlockable(g) && StartsExist(g)
  }

  predicate Inv(w: World) {
    && (w.state == Suspending ==> w.suspends > 0)
    && (w.resumeAfterSuspend ==> w.suspends > 0)
    && (SomeoneWaits(w) ==> WakeUpPending(w))
    && (forall i :: 0 <= i < |w.groups| ==> GroupOk(w.groups[i]))
    && OneTimer(w)
  }

  // ---------------------------------------------------------------- the pieces

  lemma WokenKeeps(g: Group)
    requires StartsExist(g)
    ensures StartsExist(Woken(g))
  {
    ReverseMembers(g.waiting);
    var r := Reverse(g.waiting);
    forall k | 0 <= k < |r|
      ensures r[k] < |g.sounds|
    {
      assert r[k] in g.waiting;
    }
  }

  /** A resume touches no group, and leaves a wake-up pending unless the context runs; then no timer is live. */
  lemma ResumeAsked(w: World)
    requires Inv(w)
    ensures var a := AutoResumed(w);
            && Inv(a) && a.groups == w.groups && a.state == w.state && a.interrupted == w.interrupted
            && (if a.state == Running && !a.interrupted then a.live == {} else WakeUpPending(a))
            && a.live <= w.live
  {
  }

  lemma SuspendArmed(w: World)
    requires Inv(w)
    ensures var a := AutoSuspended(w);
            Inv(a) && a.groups == w.groups && (AnyAudible(w) ==> a == w)
  {
  }

  /** Changing one group keeps the invariant if nobody new waits there, or a wake-up is pending anyway. */
  lemma Regrouped(w: World, i: nat, g: Group)
    requires Inv(w) && i < |w.groups| && GroupOk(g)
    requires g.registered && g.waiting != [] ==> (w.groups[i].registered && w.groups[i].waiting != []) || WakeUpPending(w)
    ensures Inv(WithGroup(w, i, g))
  {
  }

  lemma Repaused(w: World, i: nat, j: nat, paused: bool)
    requires HasSound(w, i, j) && Inv(w)
    ensures Inv(WithPaused(w, i, j, paused))
  {
  }

  lemma PlayKeeps(w: World, i: nat, j: nat, stand: Stand)
    requires HasSound(w, i, j) && Inv(w)
    ensures Inv(Played(w, i, j, stand))
  {
    var a := AutoResumed(w);
    ResumeAsked(w);
    if stand.AtEnd? {
      Repaused(a, i, j, true);
      SuspendArmed(WithPaused(a, i, j, true));
    } else if a.state != Running || a.interrupted {
      var g := a.groups[i];
      assert GroupOk(g);
      Regrouped(a, i, g.(playLock := true, waiting := g.waiting + [j]));
    }
  }

  lemma ResumeSettledKeeps(w: World)
    requires Inv(w) && w.resumes > 0
    ensures Inv(ResumeSettled(w)) && !SomeoneWaits(ResumeSettled(w))
  {
    var r := ResumeSettled(w);
    forall i | 0 <= i < |r.groups|
      ensures GroupOk(r.groups[i])
    {
      assert GroupOk(w.groups[i]);
      WokenKeeps(w.groups[i]);
      ReverseMembers(w.groups[i].waiting);
    }
  }

  lemma StartDueKeeps(w: World, i: nat)
    requires Inv(w) && Enabled(w, StartDue(i))
    ensures Inv(StartedDue(w, i))
  {
  }

  /** Steps on one group that start nothing. */
  lemma GroupStepKeeps(w: World, st: Step)
    requires Inv(w) && Enabled(w, st) && (st.AddSound? || st.Drop? || st.Unload?)
    ensures Inv(Do(w, st))
  {
    var i := st.group;
    var g := w.groups[i];
    assert GroupOk(g);
    match st
    case AddSound(_) => Regrouped(w, i, g.(sounds := g.sounds + [Sound(true, true)]));
    case Drop(_, j) => Regrouped(w, i, g.(sounds := g.sounds[j := g.sounds[j].(pooled := false)]));
    case Unload(_) => Regrouped(w, i, Unloaded(g));
  }

  /** Steps that touch no group there is. */
  lemma ContextStepKeeps(w: World, st: Step)
    requires Inv(w) && Enabled(w, st)
    requires st.Interrupt? || st.SetAutoSuspend? || st.Create? || st.TimerFires? || st.SuspendDone?
    ensures Inv(Do(w, st))
  {
    assert SomeoneWaits(Do(w, st)) ==> SomeoneWaits(w);
  }

  /** Every step of the protocol, in whatever order, keeps the invariant. */
  lemma InvKept(w: World, st: Step)
    requires Inv(w) && Enabled(w, st)
    ensures Inv(Do(w, st))
  {
    match st {
      case Play(i, j, stand) => PlayKeeps(w, i, j, stand);
      case Pause(i, j) => Repaused(w, i, j, true);
      case Ended(i, j, loops) =>
        Repaused(w, i, j, true);
        SuspendArmed(WithPaused(w, i, j, true));
      case Wake => ResumeAsked(w);
      case AddSound(_) => GroupStepKeeps(w, st);
      case Drop(_, _) => GroupStepKeeps(w, st);
      case Unload(_) => GroupStepKeeps(w, st);
      case ResumeDone => ResumeSettledKeeps(w);
      case StartDue(i) => StartDueKeeps(w, i);
      case _ => ContextStepKeeps(w, st);
    }
  }

  /**
   A wake-up asked for during a suspension is used up by it: once no suspension is unsettled, the next one
   is followed by no resume that was not asked for while it was under way.
   */
  lemma NoStaleWakeUp(w: World, timer: nat)
    requires Inv(w) && w.suspends == 0 && w.autoSuspend && timer in w.live
    ensures var settled := SuspendSettled(TimerFired(w, timer));
            settled.state == Suspended && settled.resumes == w.resumes && !settled.resumeAfterSuspend
    ensures var settled := SuspendSettled(AutoResumed(TimerFired(w, timer)));
            settled.state == Suspended && settled.resumes == w.resumes + 1 && !settled.resumeAfterSuspend
  {
  }

  /** An unloaded group is gone: its sounds can be played no more, none is heard, all are paused unless the group was
      locked and the stop only queued, and no 'resume' reaches it. */
  lemma UnloadedIsGone(w: World, i: nat)
    requires Enabled(w, Unload(i))
    ensures var r := Do(w, Unload(i));
            && (forall j: nat, stand :: !Enabled(r, Play(i, j, stand)))
            && |r.groups[i].sounds| == |w.groups[i].sounds|
            && (forall j :: 0 <= j < |r.groups[i].sounds| ==>
                  && !Audible(r.groups[i], r.groups[i].sounds[j])
                  && r.groups[i].sounds[j].paused == (!w.groups[i].playLock || w.groups[i].sounds[j].paused))
            && (r.resumes > 0 ==> ResumeSettled(r).groups[i] == r.groups[i])
            && (forall k :: 0 <= k < |w.groups| && k != i ==> r.groups[k] == w.groups[k])
  {
  }

  /** 'resume' reaches registered groups only: their waiting starts become due, latest first, and no other's. */
  lemma ResumeReaches(w: World, i: nat)
    requires w.resumes > 0 && i < |w.groups|
    ensures var g, r := w.groups[i], ResumeSettled(w).groups[i];
            if g.registered then r.waiting == [] && |r.due| == |g.due| + |g.waiting| && g.due <= r.due
                                 && forall k :: 0 <= k < |g.waiting| ==> g.waiting[k] in r.due
            else r == g
  {
    var g := w.groups[i];
    ReverseMembers(g.waiting);
    if g.registered {
      var r := ResumeSettled(w).groups[i];
      forall k | 0 <= k < |g.waiting|
        ensures g.waiting[k] in r.due
      {
        assert g.waiting[k] in Reverse(g.waiting);
      }
    }
  }

  /** A drained sound is no longer looked at, and can no longer be played. */
  lemma DroppedIsGone(w: World, i: nat, j: nat, stand: Stand)
    requires Enabled(w, Drop(i, j))
    ensures var r := Do(w, Drop(i, j));
            && !Enabled(r, Play(i, j, stand)) && !Audible(r.groups[i], r.groups[i].sounds[j])
            && |r.groups[i].sounds| == |w.groups[i].sounds|
            && forall k :: 0 <= k < |r.groups[i].sounds| && k != j ==> r.groups[i].sounds[k] == w.groups[i].sounds[k]
  {
  }

  /** A new group is registered, unlocked and empty; a new sound is silent, and can be played. */
  lemma AddedIsIdle(w: World, webAudio: bool)
    ensures var r, i := Do(w, Create(webAudio)), |w.groups|;
            && |r.groups| == i + 1 && r.groups[..i] == w.groups
            && r.groups[i].registered && !r.groups[i].playLock && r.groups[i].webAudio == webAudio
            && r.groups[i].sounds == [] && r.groups[i].waiting == [] && r.groups[i].due == []
            && var s := Do(r, AddSound(i));
            |s.groups[i].sounds| == 1 && !Audible(s.groups[i], s.groups[i].sounds[0])
            && (Enabled(s, Play(i, 0, BeforeEnd)) <==> webAudio)
  {
  }

  /** The timer remembered is one the browser still holds. */
  predicate TimerLive(w: World) {
    w.suspendTimer.Some? ==> w.suspendTimer.value in w.live
  }

  /** Exactly one kind of step leaves a timer remembered that has fired: one that fires while auto-suspend is off. */
  lemma TimerLiveKept(w: World, st: Step)
    requires Inv(w) && TimerLive(w) && Enabled(w, st)
    ensures TimerLive(Do(w, st)) <==> !(st.TimerFires? && !w.autoSuspend)
  {
    match st {
      case Play(i, j, stand) =>
        ResumeTimer(w);
        if stand.AtEnd? { IdleTimer(WithPaused(AutoResumed(w), i, j, true)); }
      case Ended(i, j, loops) => IdleTimer(WithPaused(w, i, j, true));
      case Wake => ResumeTimer(w);
      case SuspendDone => ResumeTimer(w.(suspends := w.suspends - 1, state := Suspended, resumeAfterSuspend := false));
      case _ =>
    }
  }

  lemma ResumeTimer(w: World)
    requires TimerLive(w)
    ensures TimerLive(AutoResumed(w)) && AutoResumed(w).groups == w.groups
  {
  }

  lemma IdleTimer(w: World)
    requires TimerLive(w)
    ensures TimerLive(AutoSuspended(w))
  {
  }

  /** Nothing suspends the context that did not before. */
  predicate NoMoreSuspension(w: World, r: World) {
    && !r.autoSuspend && r.suspends <= w.suspends && r.live <= w.live
    && (r.state == Suspending ==> w.state == Suspending)
  }

  lemma ResumeOff(w: World)
    requires !w.autoSuspend
    ensures NoMoreSuspension(w, AutoResumed(w)) && AutoResumed(w).groups == w.groups
  {
  }

  /** While auto-suspend is off no step starts to suspend the context, or arms a timer. */
  lemma AutoSuspendOff(w: World, st: Step)
    requires Enabled(w, st) && !w.autoSuspend && !st.SetAutoSuspend?
    ensures NoMoreSuspension(w, Do(w, st))
  {
    match st {
      case Play(i, j, stand) => ResumeOff(w);
      case Wake => ResumeOff(w);
      case SuspendDone => ResumeOff(w.(suspends := w.suspends - 1, state := Suspended, resumeAfterSuspend := false));
      case _ =>
    }
  }

  /** Switching it touches nothing else; a sound that loops goes on at its end, any other is paused there. */
  lemma SmallSteps(w: World, on: bool, i: nat, j: nat)
    ensures Do(w, SetAutoSuspend(on)) == w.(autoSuspend := on) && Do(w, Interrupt(on)) == w.(interrupted := on)
    ensures Enabled(w, Ended(i, j, true)) ==> Do(w, Ended(i, j, true)) == w
    ensures Enabled(w, Ended(i, j, false)) ==> Do(w, Ended(i, j, false)).groups[i].sounds[j].paused
  {
  }

  // ---------------------------------------------------------------- runs

  predicate Follows(w: World, sts: seq<Step>)
    decreases |sts|
  {
    sts == [] || (Enabled(w, sts[0]) && Follows(Do(w, sts[0]), sts[1..]))
  }

  function Run(w: World, sts: seq<Step>): World
    requires Follows(w, sts)
    decreases |sts|
  {
    if sts == [] then w else Run(Do(w, sts[0]), sts[1..])
  }

  /** The protocol as the page finds it: nothing pending, no groups; `_setup` arms the timer. */
  function Initial(running: bool): World {
    AutoSuspended(World(if running then Running else Suspended, false, true, None, {}, 0, false, 0, 0, []))
  }

  /** No lost wake-up, over every run: whoever waits will be woken, and whoever is locked has a start coming. */
  lemma {:induction false} NoLostWakeUp(w: World, sts: seq<Step>)
    requires Inv(w) && Follows(w, sts)
    ensures Inv(Run(w, sts))
    decreases |sts|
  {
    if sts != [] {
      InvKept(w, sts[0]);
      NoLostWakeUp(Do(w, sts[0]), sts[1..]);
    }
  }

  lemma InitialInv(running: bool)
    ensures Inv(Initial(running)) && Initial(running).groups == []
  {
  }

  // ---------------------------------------------------------------- unlocking

  /** The browser settling something it already holds. */
  predicate Completion(st: Step) {
    st.SuspendDone? || st.ResumeDone? || st.StartDue?
  }

  predicate Completions(sts: seq<Step>) {
    forall k :: 0 <= k < |sts| ==> Completion(sts[k])
  }

  function Waits(gs: seq<Group>): nat {
    if gs == [] then 0 else 2 * |gs[0].waiting| + |gs[0].due| + Waits(gs[1..])
  }

  /** What is still to be settled; a suspend may turn into a resume, a waiting start into a scheduled one. */
  function Unsettled(w: World): nat {
    2 * w.suspends + w.resumes + Waits(w.groups)
  }

  lemma {:induction false} WaitsUpdate(gs: seq<Group>, i: nat, g: Group)
    requires i < |gs|
    ensures Waits(gs[i := g]) + 2 * |gs[i].waiting| + |gs[i].due| == Waits(gs) + 2 * |g.waiting| + |g.due|
  {
    if i == 0 {
      assert gs[0 := g][1..] == gs[1..];
    } else {
      assert gs[i := g][1..] == gs[1..][i - 1 := g];
      WaitsUpdate(gs[1..], i - 1, g);
    }
  }

  lemma {:induction false} WaitsWoken(gs: seq<Group>)
    ensures Waits(AllWoken(gs)) <= Waits(gs)
  {
    if gs != [] {
      WaitsWoken(gs[1..]);
      ReverseMembers(gs[0].waiting);
      assert AllWoken(gs)[1..] == AllWoken(gs[1..]);
    }
  }

  lemma CompletionSettles(w: World, st: Step)
    requires Inv(w) && Completion(st) && Enabled(w, st)
    ensures Unsettled(Do(w, st)) < Unsettled(w)
  {
    match st {
      case SuspendDone =>
      case ResumeDone => WaitsWoken(w.groups);
      case StartDue(i) =>
        var g := w.groups[i];
        var g1 := g.(due := g.due[1..]);
        var g2 := g1.(playLock := false);
        var g3 := g2.(sounds := g2.sounds[g.due[0] := g2.sounds[g.due[0]].(paused := false)]);
        WaitsUpdate(w.groups, i, g3);
        assert StartedDue(w, i).groups == w.groups[i := g3];
    }
  }

  /** Whatever the browser holds settles within a bounded number of steps, in any order ... */
  lemma {:induction false} CompletionsEnd(w: World, sts: seq<Step>)
    requires Inv(w) && Follows(w, sts) && Completions(sts)
    ensures |sts| <= Unsettled(w) && Inv(Run(w, sts))
    decreases |sts|
  {
    if sts != [] {
      CompletionSettles(w, sts[0]);
      InvKept(w, sts[0]);
      CompletionsEnd(Do(w, sts[0]), sts[1..]);
    }
  }

  /** ... and once nothing is left to settle, no registered group is locked and nobody waits. */
  lemma SettledIsUnlocked(w: World)
    requires Inv(w) && forall st :: Completion(st) ==> !Enabled(w, st)
    ensures forall i :: 0 <= i < |w.groups| && w.groups[i].registered ==>
              !w.groups[i].playLock && w.groups[i].waiting == [] && w.groups[i].due == []
  {
    assert !Enabled(w, SuspendDone) && !Enabled(w, ResumeDone);
    forall i | 0 <= i < |w.groups| && w.groups[i].registered
      ensures !w.groups[i].playLock && w.groups[i].waiting == [] && w.groups[i].due == []
    {
      assert GroupOk(w.groups[i]);
      assert !Enabled(w, StartDue(i));
      assert w.groups[i].waiting != [] ==> SomeoneWaits(w);
    }
  }

  /** The completions that unlock a locked group: at most a suspend, a resume and its own start. */
  function Unlocking(w: World, i: nat): seq<Step>
    requires i < |w.groups|
  {
    if w.groups[i].due != [] then [StartDue(i)]
    else if w.resumes > 0 then [ResumeDone, StartDue(i)]
    else [SuspendDone, ResumeDone, StartDue(i)]
  }

  predicate UnlockedIn(w: World, i: nat) {
    i < |w.groups| && !w.groups[i].playLock
  }

  lemma UnlocksWhenDue(w: World, i: nat)
    requires Inv(w) && i < |w.groups| && w.groups[i].due != []
    ensures Follows(w, [StartDue(i)]) && UnlockedIn(Run(w, [StartDue(i)]), i)
  {
    assert GroupOk(w.groups[i]) && Enabled(w, StartDue(i));
    FollowsOne(w, StartDue(i), []);
    assert [StartDue(i)] + [] == [StartDue(i)];
  }

  lemma UnlocksWhenResuming(w: World, i: nat)
    requires Inv(w) && i < |w.groups| && w.groups[i].registered && w.groups[i].waiting != [] && w.resumes > 0
    ensures var sts := [ResumeDone, StartDue(i)];
            Follows(w, sts) && UnlockedIn(Run(w, sts), i)
  {
    var sts := [ResumeDone, StartDue(i)];
    var r := Do(w, ResumeDone);
    InvKept(w, ResumeDone);
    ReverseMembers(w.groups[i].waiting);
    assert r.groups[i].due != [];
    UnlocksWhenDue(r, i);
    assert sts[1..] == [StartDue(i)];
  }

  /** A registered, locked group can always be unlocked, by completions that are already pending. */
  lemma LockedCanUnlock(w: World, i: nat)
    requires Inv(w) && i < |w.groups| && w.groups[i].registered && w.groups[i].playLock
    ensures Completions(Unlocking(w, i)) && Follows(w, Unlocking(w, i))
    ensures UnlockedIn(Run(w, Unlocking(w, i)), i)
  {
    assert GroupOk(w.groups[i]);
    if w.groups[i].due != [] {
      UnlocksWhenDue(w, i);
    } else {
      assert SomeoneWaits(w);
      if w.resumes > 0 {
        UnlocksWhenResuming(w, i);
      } else {
        var s := Do(w, SuspendDone);
        InvKept(w, SuspendDone);
        UnlocksWhenResuming(s, i);
        assert Unlocking(w, i)[1..] == [ResumeDone, StartDue(i)];
      }
    }
  }

  /** At most one suspend timer is live, in every reachable state. */
  lemma AtMostOne(w: World)
    requires OneTimer(w)
    ensures |w.live| <= 1
  {
    if w.live != {} {
      var t :| t in w.live;
      assert forall u :: u in w.live ==> u == t;
      assert w.live == {t};
    }
  }

  lemma FollowsOne(w: World, st: Step, rest: seq<Step>)
    requires Enabled(w, st) && Follows(Do(w, st), rest)
    ensures Follows(w, [st] + rest) && Run(w, [st] + rest) == Run(Do(w, st), rest)
  {
  }
}
