/**
 The suspend/resume protocol of the one AudioContext: after 30 idle seconds it is suspended, a play
 resumes it, and plays made in between wait for the 'resume' event. Timers, promises and deferred
 callbacks are pending events that complete in any order.

 `World` is the protocol's state; every step is a function on it.
 */
module Suspension {
  import opened Wrappers

  datatype ContextState = Running | Suspending | Suspended

  /** A pool member as far as the protocol can tell. `pooled` is false once it is drained or its group unloaded. */
  datatype Sound = Sound(paused: bool, pooled: bool)

  /** `waiting` are the sounds whose start is registered with `once('resume', ...)`, `due` those whose start is
      scheduled with `setTimeout(..., 0)`. */
  datatype Group = Group(registered: bool, webAudio: bool, playLock: bool, sounds: seq<Sound>,
                         waiting: seq<nat>, due: seq<nat>)

  datatype World = World(
    state: ContextState,
    interrupted: bool,           // the browser's own `ctx.state === 'interrupted'`
    autoSuspend: bool,
    suspendTimer: Option<nat>,   // the handle the player remembers
    live: set<nat>,              // the timeouts the browser still holds
    timers: nat,
    resumeAfterSuspend: bool,
    suspends: nat,               // `ctx.suspend()` promises not yet settled
    resumes: nat,                // `ctx.resume()` promises not yet settled
    groups: seq<Group>)

  /** Where a sound stands when it is played: one at its end ends at once, which only starts a looping one over. */
  datatype Stand = BeforeEnd | AtEnd | LoopsAtEnd

  datatype Step =
    | Play(group: nat, sound: nat, stand: Stand)
    | Pause(group: nat, sound: nat)
    | Ended(group: nat, sound: nat, loops: bool)
    | Wake                                        // `_autoResume` on its own, as from a touch
    | Interrupt(on: bool)
    | SetAutoSuspend(on: bool)
    | Create(webAudio: bool)
    | AddSound(group: nat)
    | Drop(group: nat, sound: nat)
    | Unload(group: nat)
    | TimerFires(timer: nat)
    | SuspendDone
    | ResumeDone
    | StartDue(group: nat)

  // ---------------------------------------------------------------- steps

  /** A sound the auto-suspend check looks at and finds playing. */
  predicate Audible(g: Group, s: Sound) {
    g.registered && g.webAudio && s.pooled && !s.paused
  }

  predicate AnyAudible(w: World) {
    exists i, j :: 0 <= i < |w.groups| && 0 <= j < |w.groups[i].sounds| && Audible(w.groups[i], w.groups[i].sounds[j])
  }

  function Disarmed(w: World): World {
    if w.suspendTimer.Some? then w.(live := w.live - {w.suspendTimer.value}) else w
  }

  /** `_autoSuspend`. */
  function AutoSuspended(w: World): World {
    if !w.autoSuspend || AnyAudible(w) then w
    else
      var d := Disarmed(w);
      d.(suspendTimer := Some(w.timers), live := d.live + {w.timers}, timers := w.timers + 1)
  }

  /** `_autoResume`. */
  function AutoResumed(w: World): World {
    if w.state == Running && !w.interrupted && w.suspendTimer.Some? then Disarmed(w).(suspendTimer := None)
    else if w.state == Suspended || (w.state == Running && w.interrupted) then
      Disarmed(w).(suspendTimer := None, resumes := w.resumes + 1)
    else if w.state == Suspending then w.(resumeAfterSuspend := true)
    else w
  }

  predicate HasSound(w: World, i: nat, j: nat) {
    i < |w.groups| && j < |w.groups[i].sounds|
  }

  function WithGroup(w: World, i: nat, g: Group): World
    requires i < |w.groups|
  {
    w.(groups := w.groups[i := g])
  }

  function WithPaused(w: World, i: nat, j: nat, paused: bool): World
    requires HasSound(w, i, j)
  {
    var g := w.groups[i];
    WithGroup(w, i, g.(sounds := g.sounds[j := g.sounds[j].(paused := paused)]))
  }

  /** `_ended` of a sound that does not loop. */
  function EndedSound(w: World, i: nat, j: nat): World
    requires HasSound(w, i, j)
  {
    AutoSuspended(WithPaused(w, i, j, true))
  }

  /** `playWebAudio`. */
  function Started(w: World, i: nat, j: nat): World
    requires HasSound(w, i, j)
  {
    var unlocked := WithGroup(w, i, w.groups[i].(playLock := false));
    WithPaused(unlocked, i, j, false)
  }

  function Deferred(w: World, i: nat, j: nat): World
    requires HasSound(w, i, j)
  {
    var g := w.groups[i];
    WithGroup(w, i, g.(playLock := true, waiting := g.waiting + [j]))
  }

  function Played(w: World, i: nat, j: nat, stand: Stand): World
    requires HasSound(w, i, j)
  {
    var a := AutoResumed(w);
    if stand.LoopsAtEnd? then a
    else if stand.AtEnd? then EndedSound(a, i, j)
    else if a.state == Running && !a.interrupted then Started(a, i, j)
    else Deferred(a, i, j)
  }

  /** The timeout of `_autoSuspend`. */
  function TimerFired(w: World, timer: nat): World {
    var f := w.(live := w.live - {timer});
    if !w.autoSuspend then f
    else f.(suspendTimer := None, state := Suspending, suspends := w.suspends + 1)
  }

  function SuspendSettled(w: World): World
    requires w.suspends > 0
  {
    var s := w.(suspends := w.suspends - 1, state := Suspended);
    if w.resumeAfterSuspend then AutoResumed(s.(resumeAfterSuspend := false)) else s
  }

  /** Emitting 'resume': every start that waited is scheduled, latest first, and the listeners are gone. */
  function Woken(g: Group): Group {
    if g.registered then g.(due := g.due + Reverse(g.waiting), waiting := []) else g
  }

  function AllWoken(gs: seq<Group>): (rs: seq<Group>)
    ensures |rs| == |gs| && forall i :: 0 <= i < |gs| ==> rs[i] == Woken(gs[i])
  {
    if gs == [] then [] else [Woken(gs[0])] + AllWoken(gs[1..])
  }

  function ResumeSettled(w: World): World
    requires w.resumes > 0
  {
    w.(resumes := w.resumes - 1, state := Running, groups := AllWoken(w.groups))
  }

  function StartedDue(w: World, i: nat): World
    requires i < |w.groups| && w.groups[i].due != [] && HasSound(w, i, w.groups[i].due[0])
  {
    var g := w.groups[i];
    Started(WithGroup(w, i, g.(due := g.due[1..])), i, g.due[0])
  }

  /** `unload`: playing sounds are stopped, unless the group is locked and the stop is only queued. */
  function Unloaded(g: Group): Group {
    g.(registered := false,
       sounds := seq(|g.sounds|, j requires 0 <= j < |g.sounds| => Sound(!g.playLock || g.sounds[j].paused, false)))
  }

  predicate Enabled(w: World, st: Step) {
    match st
    case Play(i, j, _) =>
      HasSound(w, i, j) && w.groups[i].webAudio && w.groups[i].sounds[j].pooled && w.groups[i].sounds[j].paused
    case Pause(i, j) => HasSound(w, i, j) && !w.groups[i].playLock
    case Ended(i, j, _) => HasSound(w, i, j) && w.groups[i].webAudio && !w.groups[i].sounds[j].paused
    case AddSound(i) => i < |w.groups|
    case Drop(i, j) => HasSound(w, i, j) && w.groups[i].sounds[j].paused
    case Unload(i) => i < |w.groups|
    case TimerFires(t) => t in w.live
    case SuspendDone => w.suspends > 0
    case ResumeDone => w.resumes > 0
    case StartDue(i) => i < |w.groups| && w.groups[i].due != [] && HasSound(w, i, w.groups[i].due[0])
    case _ => true
  }

  function Do(w: World, st: Step): World
    requires Enabled(w, st)
  {
    match st
    case Play(i, j, stand) => Played(w, i, j, stand)
    case Pause(i, j) => WithPaused(w, i, j, true)
    case Ended(i, j, loops) => if loops then w else EndedSound(w, i, j)
    case Wake => AutoResumed(w)
    case Interrupt(on) => w.(interrupted := on)
    case SetAutoSuspend(on) => w.(autoSuspend := on)
    case Create(webAudio) => w.(groups := w.groups + [Group(true, webAudio, false, [], [], [])])
    case AddSound(i) => WithGroup(w, i, w.groups[i].(sounds := w.groups[i].sounds + [Sound(true, true)]))
    case Drop(i, j) =>
      WithGroup(w, i, w.groups[i].(sounds := w.groups[i].sounds[j := w.groups[i].sounds[j].(pooled := false)]))
    case Unload(i) => WithGroup(w, i, Unloaded(w.groups[i]))
    case TimerFires(t) => TimerFired(w, t)
    case SuspendDone => SuspendSettled(w)
    case ResumeDone => ResumeSettled(w)
    case StartDue(i) => StartedDue(w, i)
  }

  // ---------------------------------------------------------------- the controller

  /** The controller's own fields, and what the browser holds for it. */
  class Controller {
    var state: ContextState
    var interrupted: bool
    var autoSuspend: bool
    var suspendTimer: Option<nat>
    var live: set<nat>
    var timers: nat
    var resumeAfterSuspend: bool
    var suspends: nat
    var resumes: nat
    var groups: seq<Group>

    function Protocol(): World
      reads this
    {
      World(state, interrupted, autoSuspend, suspendTimer, live, timers, resumeAfterSuspend, suspends, resumes,
                       groups)
    }

    /** `_setup`: the context is running or not, and the suspend process begins. */
    constructor (running: bool)
      ensures Protocol() == AutoSuspended(World(if running then Running else Suspended, false, true, None, {}, 0,
                                                        false, 0, 0, []))
    {
      state := if running then Running else Suspended;
      interrupted, autoSuspend := false, true;
      suspendTimer, live, timers := None, {}, 0;
      resumeAfterSuspend, suspends, resumes := false, 0, 0;
      groups := [];
      new;
      AutoSuspend();
    }

    /** Look through every pool for a sound that plays. */
    method Search() returns (found: bool)
      ensures found == AnyAudible(Protocol())
    {
      for i := 0 to |groups|
        invariant forall k, l :: 0 <= k < i && 0 <= l < |groups[k].sounds| ==> !Audible(groups[k], groups[k].sounds[l])
      {
        if groups[i].registered && groups[i].webAudio {
          for j := 0 to |groups[i].sounds|
            invariant forall l :: 0 <= l < j ==> !Audible(groups[i], groups[i].sounds[l])
          {
            if groups[i].sounds[j].pooled && !groups[i].sounds[j].paused {
              assert Audible(Protocol().groups[i], Protocol().groups[i].sounds[j]);
              return true;
            }
          }
        }
      }
      return false;
    }

    method Disarm()
      modifies `live
      ensures Protocol() == Disarmed(old(Protocol()))
    {
      if suspendTimer.Some? {
        live := live - {suspendTimer.value};
      }
    }

    method AutoSuspend()
      modifies this
      ensures Protocol() == AutoSuspended(old(Protocol()))
    {
      if !autoSuspend {
        return;
      }
      var found := Search();
      if found {
        return;
      }
      Disarm();
      suspendTimer := Some(timers);
      live := live + {timers};
      timers := timers + 1;
    }

    method AutoResume()
      modifies this
      ensures Protocol() == AutoResumed(old(Protocol()))
    {
      if state == Running && !interrupted && suspendTimer.Some? {
        Disarm();
        suspendTimer := None;
      } else if state == Suspended || (state == Running && interrupted) {
        resumes := resumes + 1;
        Disarm();
        suspendTimer := None;
      } else if state == Suspending {
        resumeAfterSuspend := true;
      }
    }

    method SetPaused(i: nat, j: nat, paused: bool)
      requires HasSound(Protocol(), i, j)
      modifies `groups
      ensures Protocol() == WithPaused(old(Protocol()), i, j, paused)
    {
      var g := groups[i];
      groups := groups[i := g.(sounds := g.sounds[j := g.sounds[j].(paused := paused)])];
    }

    /** `_ended`: a looping sound goes on as it is. */
    method Ended(i: nat, j: nat, loops: bool)
      requires HasSound(Protocol(), i, j)
      modifies this
      ensures Protocol() == if loops then old(Protocol()) else EndedSound(old(Protocol()), i, j)
    {
      if !loops {
        SetPaused(i, j, true);
        AutoSuspend();
      }
    }

    /** `playWebAudio`. */
    method Start(i: nat, j: nat)
      requires HasSound(Protocol(), i, j)
      modifies this
      ensures Protocol() == Started(old(Protocol()), i, j)
    {
      groups := groups[i := groups[i].(playLock := false)];
      SetPaused(i, j, false);
    }

    /** `play`, once its sound is chosen. */
    method Play(i: nat, j: nat, stand: Stand)
      requires HasSound(Protocol(), i, j)
      modifies this
      ensures Protocol() == Played(old(Protocol()), i, j, stand)
    {
      AutoResume();
      if stand != BeforeEnd {
        Ended(i, j, stand.LoopsAtEnd?);
      } else if state == Running && !interrupted {
        Start(i, j);
      } else {
        groups := groups[i := groups[i].(playLock := true, waiting := groups[i].waiting + [j])];
      }
    }

    method OnTimer(timer: nat)
      requires timer in live
      modifies this
      ensures Protocol() == TimerFired(old(Protocol()), timer)
    {
      live := live - {timer};
      if autoSuspend {
        suspendTimer := None;
        state := Suspending;
        suspends := suspends + 1;
      }
    }

    /** `handleSuspension`. */
    method OnSuspended()
      requires suspends > 0
      modifies this
      ensures Protocol() == SuspendSettled(old(Protocol()))
    {
      suspends := suspends - 1;
      state := Suspended;
      if resumeAfterSuspend {
        resumeAfterSuspend := false;
        AutoResume();
      }
    }

    /** The resume promise settles: every registered group emits 'resume'. */
    method OnResumed()
      requires resumes > 0
      modifies this
      ensures Protocol() == ResumeSettled(old(Protocol()))
    {
      resumes := resumes - 1;
      state := Running;
      ghost var before := groups;
      for i := 0 to |groups|
        invariant |groups| == |before| && unchanged(`interrupted, `autoSuspend, `suspendTimer, `live, `timers)
        invariant unchanged(`resumeAfterSuspend, `suspends) && state == Running && resumes == old(resumes) - 1
        invariant forall k :: 0 <= k < |groups| ==> groups[k] == if k < i then Woken(before[k]) else before[k]
      {
        if groups[i].registered {
          EmitResume(i);
        }
      }
      assert groups == AllWoken(before);
    }

    /** `_emit('resume')` on one group: walk its listeners from the back, scheduling and removing each. */
    method EmitResume(i: nat)
      requires i < |groups| && groups[i].registered
      modifies `groups
      ensures groups == old(groups)[i := Woken(old(groups)[i])]
    {
      ghost var g := groups[i];
      while groups[i].waiting != []
        invariant |groups| == |old(groups)| && groups == old(groups)[i := groups[i]]
        invariant groups[i] == g.(due := groups[i].due, waiting := groups[i].waiting)
        invariant groups[i].due + Reverse(groups[i].waiting) == g.due + Reverse(g.waiting)
        decreases |groups[i].waiting|
      {
        var h := groups[i];
        var n := |h.waiting|;
        ReverseLast(h.waiting);
        groups := groups[i := h.(due := h.due + [h.waiting[n - 1]], waiting := h.waiting[..n - 1])];
      }
      assert groups[i].due == groups[i].due + Reverse(groups[i].waiting);
      assert groups[i] == Woken(g);
    }

    /** A start scheduled with `setTimeout(..., 0)` runs. */
    method OnStartDue(i: nat)
      requires i < |groups| && groups[i].due != [] && HasSound(Protocol(), i, groups[i].due[0])
      modifies this
      ensures Protocol() == StartedDue(old(Protocol()), i)
    {
      var g := groups[i];
      groups := groups[i := g.(due := g.due[1..])];
      Start(i, g.due[0]);
    }

    /** One step of the protocol. */
    method Perform(st: Step)
      requires Enabled(Protocol(), st)
      modifies this
      ensures Protocol() == Do(old(Protocol()), st)
    {
      match st
      case Play(i, j, stand) => Play(i, j, stand);
      case Pause(i, j) => SetPaused(i, j, true);
      case Ended(i, j, loops) => Ended(i, j, loops);
      case Wake => AutoResume();
      case Interrupt(on) => interrupted := on;
      case SetAutoSuspend(on) => autoSuspend := on;
      case Create(webAudio) => groups := groups + [Group(true, webAudio, false, [], [], [])];
      case AddSound(i) => groups := groups[i := groups[i].(sounds := groups[i].sounds + [Sound(true, true)])];
      case Drop(i, j) =>
        groups := groups[i := groups[i].(sounds := groups[i].sounds[j := groups[i].sounds[j].(pooled := false)])];
      case Unload(i) => groups := groups[i := Unloaded(groups[i])];
      case TimerFires(t) => OnTimer(t);
      case SuspendDone => OnSuspended();
      case ResumeDone => OnResumed();
      case StartDue(i) => OnStartDue(i);
    }
  }
}
