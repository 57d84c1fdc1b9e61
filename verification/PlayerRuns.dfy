/**
 Runs of the whole player: any number of groups, any interleaving of calls, timeouts and time. What a
 group promises in `Howl.Valid`, and that ids are unique across groups, holds after every step.
 */
module PlayerRuns {
  import opened Wrappers
  import opened Playhead
  import opened Player
  import PlayQueue

  /** A call on one group, or the browser running one of its timeouts. */
  datatype Action =
    | Play(arg: PlayArg)
    | Pause(id: Option<int>)
    | Stop(id: Option<int>)
    | Rate(rate: real, id: Option<int>)
    | Loop(on: bool, id: Option<int>)
    | Seek(position: real, to: int)
    | Load(cached: Option<real>)
    | Loaded(duration: real)
    | Unload
    | RunTimeout(index: nat, deadline: real)
    | RunPlayCallback

  datatype Step =
    | Elapse(dt: real)
    | Create(pool: nat, rate: real, loop: bool, sprites: map<string, Sprite>)
    | On(group: nat, action: Action)

  datatype Site = Site(howler: Howler, howl: Howl)

  /** A step confined to one group, which stays valid and numbers its sounds afresh, leaves the player valid. */
  twostate lemma OthersKept(site: Site)
    requires old(site.howler.Valid()) && site.howl in old(site.howler.howls) && site.howl.Valid()
    requires site.howl.QueueIssued() && site.howler.howls == old(site.howler.howls) && site.howler.now == old(site.howler.now)
    requires site.howl.IdsKept()
    requires forall g :: g in old(site.howler.howls) && g != site.howl ==> unchanged(g)
    requires forall g, s :: g in old(site.howler.howls) && g != site.howl && s in old(g.sounds) ==> unchanged(s)
    ensures site.howler.Valid()
  {
    var howler, howl := site.howler, site.howl;
    forall g | g in howler.howls
      ensures g.howler == howler && g.Valid() && g.QueueIssued()
    {
      if g != howl {
        assert old(g.Valid());
        forall s | s in g.sounds
          ensures g.DeckOf(s) == old(g.DeckOf(s)) && g.SoundOk(s)
        {
        }
      }
    }
    forall g, h, s, t | g in howler.howls && h in howler.howls && s in g.sounds && t in h.sounds && s.id == t.id
      ensures s == t
    {
      if g != howl {
        assert s in old(g.sounds) && s.id == old(s.id) && s.id in old(howler.issued);
      }
      if h != howl {
        assert t in old(h.sounds) && t.id == old(t.id) && t.id in old(howler.issued);
      }
    }
  }

  /** Time passes for every sound of every group. */
  method Tick(howler: Howler, dt: real)
    requires howler.Valid() && dt >= 0.0
    modifies howler`now
    ensures howler.Valid() && howler.now == old(howler.now) + dt
  {
    howler.now := howler.now + dt;
    TickValid(howler);
  }

  twostate lemma TickValid(howler: Howler)
    requires old(howler.Valid()) && howler.howls == old(howler.howls) && howler.now >= old(howler.now)
    requires howler.counter == old(howler.counter) && howler.issued == old(howler.issued)
    requires forall g :: g in howler.howls ==> unchanged(g) && unchanged(g.sounds)
    ensures howler.Valid()
  {
    forall g | g in howler.howls
      ensures g.howler == howler && g.Valid() && g.QueueIssued()
    {
      assert old(g.Valid());
      forall s | s in g.sounds
        ensures g.SoundOk(s)
      {
        assert old(g.SoundOk(s));
        var d := old(g.DeckOf(s));
        TimerKept(d, old(g.SpriteOf(s)), Event.Elapse(howler.now - d.now));
        assert g.DeckOf(s) == d.(now := howler.now);
      }
    }
  }

  /** The running regime, asked before each call: calls other than `play` come once the group has loaded, and no
      looping sound is started at or past its end, be it by the call itself or by the queue that it sets going. */
  predicate Allowed(h: Howl, a: Action)
    requires h.Structure()
    reads h, h.howler, h.sounds
  {
    match a
    case Play(arg) =>
      (h.loaded && arg.ById? && h.Steps(Some(arg.id)) ==> h.QueueSafe(h.queue)) &&
      if h.loaded then h.Safe(h.Resumed(arg), Event.Play) && (h.Resumed(arg) == {} ==> !h.EmptyLoop(h.SpriteAsked(arg)))
      else arg.BySprite? ==> arg.name in h.sprites
    case Pause(_) => h.loaded
    case Stop(_) => h.loaded
    case Rate(rate, _) => h.loaded && rate != 0.0
    case Loop(on, id) => (h.loaded || forall s :: s in h.sounds ==> s.paused) && h.Safe(h.Addressed(id), Event.SetLoop(on))
    case Seek(position, to) => h.loaded && (position >= 0.0 ==> h.Safe({to}, Event.SeekTo(position)))
    case Load(cached) => cached.Some? ==> cached.value >= 0.0 && h.SafeOnLoad(cached.value)
    case Loaded(duration) => duration >= 0.0 && (!h.loaded ==> h.SafeOnLoad(duration))
    case Unload => true
    case RunTimeout(index, deadline) =>
      index < |h.sounds| && deadline in h.sounds[index].pending && deadline <= h.howler.now &&
      (h.loaded && h.Restarts(h.sounds[index]) ==> h.QueueSafe(h.queue))
    case RunPlayCallback => h.playCallbacks > 0 && (h.loaded ==> h.QueueSafe(h.queue))
  }

  /** What each action does to its group, as the group's own operations promise it. */
  twostate predicate Acted(h: Howl, a: Action)
    requires old(h.Structure()) && old(Allowed(h, a))
    reads h, h.howler, h.sounds
  {
    match a
    case Play(arg) => PlayActed(Asked(h, arg))
    case Pause(id) => h.Turned(old(h.Addressed(id)), Event.Pause)
    case Stop(id) => h.Turned(old(h.Addressed(id)), Event.Stop)
    case Rate(rate, id) =>
      h.Turned(old(h.Addressed(id)), Event.SetRate(rate)) && h.rate == if id == None then rate else old(h.rate)
    case Loop(on, id) =>
      h.Turned(old(h.Addressed(id)), Event.SetLoop(on)) && h.loop == if id == None then on else old(h.loop)
    case Seek(position, to) =>
      if position < 0.0 then unchanged(h) && unchanged(h.sounds) else h.Turned({to}, Event.SeekTo(position))
    case Load(cached) =>
      h.loaded == cached.Some? && |h.sounds| == |old(h.sounds)| + 1 && h.sounds[..|old(h.sounds)|] == old(h.sounds)
    case Loaded(duration) =>
      && h.loaded && h.SameSounds() && h.Structure()
      && (!old(h.loaded) ==>
            h.QueueState()
            == PlayQueue.Next(PlayQueue.State(old(h.StagesOnLoad(duration)), old(h.queue), old(h.playCallbacks))))
    case Unload => h.sounds == [] && h.endTimers == map[] && !h.loaded
    case RunTimeout(index, deadline) =>
      h.SameSounds() &&
      h.DeckOf(h.sounds[index])
      == Playhead.Step(old(h.DeckOf(h.sounds[index])), old(h.SpriteOf(h.sounds[index])), Event.Timeout(deadline))
    case RunPlayCallback =>
      && h.SameSounds() && h.Structure()
      && (h.loaded ==> h.QueueState() == PlayQueue.Callback(old(h.QueueState())))
  }

  datatype Asked = Asked(howl: Howl, arg: PlayArg)

  twostate predicate PlayActed(asked: Asked)
    requires old(asked.howl.Structure())
    reads asked.howl, asked.howl.howler, asked.howl.sounds
  {
    var h, arg := asked.howl, asked.arg;
    if !old(h.loaded) then exists resumed, r :: h.DeferredOutcome(resumed, r)
    else if old(h.Resumed(arg)) == {} then exists r :: h.FreshOutcome(h.SpriteAsked(arg), r)
    else
      exists id ::
        && old(h.Resumed(arg)) == {id}
        && if old(h.Steps(Some(id))) then h.SteppedOutcome() else exists r :: h.ResumedOutcome(id, r)
  }

  method ActPlay(howl: Howl, arg: PlayArg)
    requires howl.Valid() && howl.QueueIssued() && Allowed(howl, Action.Play(arg))
    modifies howl, howl.sounds, howl.howler`counter, howl.howler`issued
    ensures howl.Valid() && howl.QueueIssued() && howl.IdsKept() && PlayActed(Asked(howl, arg))
    ensures forall i :: 0 <= i < |howl.sounds| ==> howl.sounds[i] in old(howl.sounds) || fresh(howl.sounds[i])
  {
    var r, resumed := howl.Play(arg);
    if resumed.Some? {
      assert old(howl.Resumed(arg)) == {resumed.value};
    }
  }

  method Act(howl: Howl, a: Action)
    requires howl.Valid() && howl.QueueIssued() && Allowed(howl, a) && !a.Unload?
    modifies howl, howl.sounds, howl.howler`counter, howl.howler`issued
    ensures howl.Valid() && howl.QueueIssued() && howl.IdsKept() && Acted(howl, a)
    ensures forall i :: 0 <= i < |howl.sounds| ==> howl.sounds[i] in old(howl.sounds) || fresh(howl.sounds[i])
  {
    match a
    case Play(arg) => ActPlay(howl, arg);
    case Pause(id) => howl.Pause(id);
    case Stop(id) => howl.Stop(id);
    case Rate(rate, id) => howl.Rate(rate, id);
    case Loop(on, id) => howl.Loop(on, id);
    case Seek(position, to) => howl.Seek(position, to);
    case Load(cached) => var _ := howl.Load(cached);
    case Loaded(duration) => howl.LoadDone(duration);
    case RunTimeout(index, deadline) => howl.Timeout(howl.sounds[index], deadline);
    case RunPlayCallback => howl.PlayCallback();
  }

  /** Everything a run may touch: the controller, its groups, and their sounds. */
  ghost function Reach(howler: Howler): set<object>
    reads howler, howler.howls
  {
    {howler} + (set h: Howl | h in howler.howls :: h as object)
             + (set h: Howl, i: int | h in howler.howls && 0 <= i < |h.sounds| :: h.sounds[i] as object)
  }

  method NewGroup(howler: Howler, pool: nat, rate: real, loop: bool, sprites: map<string, Sprite>) returns (howl: Howl)
    requires howler.Valid() && rate != 0.0
    requires sprites == map[] || DEFAULT in sprites
    requires forall n :: n in sprites ==> sprites[n].Valid()
    modifies howler`howls
    ensures howler.Valid() && fresh(howl) && howler.howls == old(howler.howls) + [howl] && howl.sounds == []
    ensures !howl.loaded && howl.queue == [] && howl.pool == pool && howl.rate == rate && howl.loop == loop
    ensures howl.spritesDefined == (sprites != map[])
    ensures howl.sprites == if sprites == map[] then map[DEFAULT := Sprite(0.0, 0.0, false)] else sprites
  {
    howl := new Howl(howler, pool, rate, loop, sprites);
    assert forall g :: g in old(howler.howls) ==> g.Valid() && g.QueueIssued();
  }

  /** Groups share no sounds: each sound has one parent. */
  lemma Separate(howler: Howler, howl: Howl)
    requires howler.Valid() && howl in howler.howls
    ensures forall g, s :: g in howler.howls && g != howl && s in g.sounds ==> s !in howl.sounds
    ensures howl in Reach(howler) && forall i :: 0 <= i < |howl.sounds| ==> howl.sounds[i] in Reach(howler)
  {
  }

  method Remove(howler: Howler, howl: Howl)
    requires howler.Valid() && howl in howler.howls
    modifies howler`howls, howl, howl.sounds
    ensures howler.Valid() && howler.howls == RemoveFirst(old(howler.howls), howl)
    ensures forall g :: g in howler.howls ==> g in old(howler.howls) && g != howl
    ensures forall g :: g in old(howler.howls) && g != howl ==> unchanged(g)
    ensures howl.sounds == [] && howl.endTimers == map[] && !howl.loaded
    ensures forall g, s :: g in old(howler.howls) && g != howl && s in old(g.sounds) ==> unchanged(s)
  {
    Separate(howler, howl);
    howl.Unload();
    RemoveFirstMembers(old(howler.howls), howl);
    RemainingValid(Site(howler, howl));
  }

  twostate lemma RemainingValid(site: Site)
    requires old(site.howler.Valid()) && site.howl in old(site.howler.howls)
    requires forall g :: g in site.howler.howls <==> g in old(site.howler.howls) && g != site.howl
    requires forall i, j :: 0 <= i < j < |site.howler.howls| ==> site.howler.howls[i] != site.howler.howls[j]
    requires site.howler.now == old(site.howler.now) && site.howler.counter == old(site.howler.counter)
    requires site.howler.issued == old(site.howler.issued)
    requires forall g :: g in old(site.howler.howls) && g != site.howl ==> unchanged(g)
    requires forall g, s :: g in old(site.howler.howls) && g != site.howl && s in old(g.sounds) ==> unchanged(s)
    ensures site.howler.Valid()
  {
    var howler, howl := site.howler, site.howl;
    forall g | g in howler.howls
      ensures g.howler == howler && g.Valid() && g.QueueIssued()
    {
      assert old(g.Valid());
      forall s | s in g.sounds
        ensures g.DeckOf(s) == old(g.DeckOf(s)) && g.SoundOk(s)
      {
      }
    }
  }

  /** A call on one group, with every other group as it was. */
  method ActOn(howler: Howler, howl: Howl, action: Action)
    requires howler.Valid() && howl in howler.howls && Allowed(howl, action)
    modifies howl, howl.sounds, howler
    ensures howler.Valid() && fresh(Reach(howler) - old(Reach(howler)))
    ensures Acted(howl, action)
    ensures howler.now == old(howler.now)
    ensures howler.howls == if action.Unload? then RemoveFirst(old(howler.howls), howl) else old(howler.howls)
    ensures forall g :: g in old(howler.howls) && g != howl ==> unchanged(g)
    ensures forall g, s :: g in old(howler.howls) && g != howl && s in old(g.sounds) ==> unchanged(s)
  {
    Separate(howler, howl);
    if action.Unload? {
      Remove(howler, howl);
    } else {
      Act(howl, action);
      OthersKept(Site(howler, howl));
    }
    NothingStrayed(Site(howler, howl));
  }

  /** The player reaches only what it reached before, and what was allocated since. */
  twostate lemma NothingStrayed(site: Site)
    requires forall g :: g in site.howler.howls ==> g in old(site.howler.howls)
    requires forall g :: g in site.howler.howls && g != site.howl ==> g.sounds == old(g.sounds)
    requires forall i :: 0 <= i < |site.howl.sounds| ==>
               site.howl.sounds[i] in old(site.howl.sounds) || fresh(site.howl.sounds[i])
    requires site.howl in old(site.howler.howls)
    ensures fresh(Reach(site.howler) - old(Reach(site.howler)))
  {
    forall h, i | h in site.howler.howls && 0 <= i < |h.sounds|
      ensures h.sounds[i] in old(Reach(site.howler)) || fresh(h.sounds[i])
    {
      if !fresh(h.sounds[i]) {
        var j :| 0 <= j < |old(h.sounds)| && old(h.sounds)[j] == h.sounds[i];
        assert old(h.sounds[j]) in old(Reach(site.howler));
      }
    }
  }

  /** One step of the player; a call outside the running regime is not made. One within it does what its group
      promises, and touches no other group. */
  method Perform(howler: Howler, step: Step)
    requires howler.Valid()
    modifies Reach(howler)
    ensures howler.Valid() && fresh(Reach(howler) - old(Reach(howler)))
    ensures step.Elapse? && step.dt >= 0.0 ==> howler.now == old(howler.now) + step.dt && howler.howls == old(howler.howls)
    ensures step.Create? ==> howler.now == old(howler.now) && old(howler.howls) <= howler.howls
    ensures step.Create? && step.rate != 0.0 && (step.sprites == map[] || DEFAULT in step.sprites)
            && (forall n :: n in step.sprites ==> step.sprites[n].Valid()) ==>
              && |howler.howls| == |old(howler.howls)| + 1
              && var howl := howler.howls[|old(howler.howls)|];
              && howl.sounds == [] && !howl.loaded && howl.queue == [] && howl.pool == step.pool
              && howl.rate == step.rate && howl.loop == step.loop
    ensures step.On? && step.group < |old(howler.howls)| && old(Allowed(howler.howls[step.group], step.action)) ==>
              var howl := old(howler.howls[step.group]);
              && Acted(howl, step.action) && howler.now == old(howler.now)
              && howler.howls == (if step.action.Unload? then RemoveFirst(old(howler.howls), howl) else old(howler.howls))
              && (forall g :: g in old(howler.howls) && g != howl ==> unchanged(g))
              && (forall g, s :: g in old(howler.howls) && g != howl && s in old(g.sounds) ==> unchanged(s))
  {
    match step
    case Elapse(dt) =>
      if dt >= 0.0 {
        Tick(howler, dt);
      }
    case Create(pool, rate, loop, sprites) =>
      if rate != 0.0 && (sprites == map[] || DEFAULT in sprites) && forall n :: n in sprites ==> sprites[n].Valid() {
        var howl := NewGroup(howler, pool, rate, loop, sprites);
        assert forall o :: o in Reach(howler) ==> o in old(Reach(howler)) || o == howl;
      }
    case On(group, action) =>
      if group < |howler.howls| && Allowed(howler.howls[group], action) {
        Separate(howler, howler.howls[group]);
        ActOn(howler, howler.howls[group], action);
      }
  }

  /**
   Whatever the run, `Howler.Valid` is never lost: in every group a deadline still ahead is exactly when the
   playhead reaches the sprite's end, one that has come finds it there or past it, and every id is unique.
   */
  method Run(howler: Howler, steps: seq<Step>)
    requires howler.Valid()
    modifies Reach(howler)
    ensures howler.Valid() && fresh(Reach(howler) - old(Reach(howler)))
  {
    for i := 0 to |steps|
      invariant howler.Valid() && fresh(Reach(howler) - old(Reach(howler)))
    {
      Perform(howler, steps[i]);
    }
  }

  // ---------------------------------------------------------------- a queue of plays

  /** The browser runs a group's callbacks, those they leave included, with nothing else in between. */
  method RunCallbacks(howl: Howl)
    requires howl.Valid() && howl.loaded && howl.QueueSafe(howl.queue)
    modifies howl`endTimers, howl`playCallbacks, howl`queue, howl.sounds
    ensures howl.Valid() && howl.SameSounds() && howl.playCallbacks == 0
    ensures howl.QueueState() == PlayQueue.Drained(old(howl.QueueState()))
  {
    while howl.playCallbacks > 0
      invariant howl.Valid() && howl.QueueSafe(howl.queue) && howl.SameSounds()
      invariant PlayQueue.Drained(howl.QueueState()) == PlayQueue.Drained(old(howl.QueueState()))
      decreases |howl.queue|, howl.playCallbacks
    {
      PlayQueue.CallbackShrinks(howl.QueueState());
      howl.PlayCallback();
    }
  }

  /** The queue is run, and then the callbacks: what becomes of every queued play. */
  method RunToTheEnd(howl: Howl)
    requires howl.Valid() && howl.loaded && howl.QueueSafe(howl.queue)
    modifies howl`endTimers, howl`playCallbacks, howl`queue, howl.sounds
    ensures howl.Valid() && howl.SameSounds()
    ensures (forall k :: k in old(howl.queue) ==> howl.IsPlaying(k))
       <==> PlayQueue.OnceIsEnough(old(howl.Stages()), old(howl.queue), old(howl.playCallbacks) > 0)
    ensures (forall k :: k in old(howl.queue) ==> howl.IsPlaying(k)) ==> howl.queue == []
  {
    ghost var st := howl.QueueState();
    howl.RunQueue();
    RunCallbacks(howl);
    PlayQueue.EveryPlayStarts(st);
    AllPlaying(howl, st.queue);
  }

  /** Loading completes with plays on the queue, and then the callbacks run. */
  method LoadToTheEnd(howl: Howl, duration: real)
    requires howl.Valid() && !howl.loaded && duration >= 0.0 && howl.SafeOnLoad(duration)
    modifies howl`endTimers, howl`playCallbacks, howl`queue, howl`sprites, howl`spritesDefined, howl`loaded, howl.sounds
    ensures howl.Valid() && howl.SameSounds()
    ensures (forall k :: k in old(howl.queue) ==> howl.IsPlaying(k))
       <==> PlayQueue.OnceIsEnough(old(howl.StagesOnLoad(duration)), old(howl.queue), old(howl.playCallbacks) > 0)
    ensures (forall k :: k in old(howl.queue) ==> howl.IsPlaying(k)) ==> howl.queue == []
  {
    ghost var st := PlayQueue.State(howl.StagesOnLoad(duration), howl.queue, howl.playCallbacks);
    howl.LoadDone(duration);
    RunCallbacks(howl);
    PlayQueue.EveryPlayStarts(st);
    AllPlaying(howl, st.queue);
  }

  lemma AllPlaying(howl: Howl, q: seq<int>)
    requires howl.Structure()
    ensures PlayQueue.AllPlay(howl.Stages(), q) <==> forall k :: k in q ==> howl.IsPlaying(k)
  {
    forall k
      ensures PlayQueue.Plays(howl.Stages(), k) <==> howl.IsPlaying(k)
    {
      howl.PlayingStage(howl.sounds, k);
    }
    if forall k :: k in q ==> howl.IsPlaying(k) {
      forall i | 0 <= i < |q|
        ensures PlayQueue.Plays(howl.Stages(), q[i])
      {
        assert q[i] in q;
      }
    }
    if PlayQueue.AllPlay(howl.Stages(), q) {
      forall k | k in q
        ensures howl.IsPlaying(k)
      {
        var i :| 0 <= i < |q| && q[i] == k;
        assert PlayQueue.Plays(howl.Stages(), q[i]);
      }
    }
  }
}
