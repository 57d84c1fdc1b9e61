/**
 The web page's client: for each name the server sends it keeps one group and one sound id, creates
 both at the first message, and toggles the sound at every later one.
 */
module Client {
  import opened Wrappers
  import opened Playhead
  import opened Player
  import PlayQueue
  import PlayerRuns

  const POOL := 5

  /** This group has the sound, no sound of it loops, and it has its sprites once it has loaded. */
  ghost predicate Ready(g: Howl, id: int)
    reads g, g.sounds
  {
    g.NoLoops() && g.spritesDefined == g.loaded && exists s :: s in g.sounds && s.id == id
  }

  /** The sound stands before its sprite's end, so a play will start it. */
  ghost predicate BeforeEnd(g: Howl, id: int)
    requires g.Structure()
    reads g, g.howler, g.sounds
  {
    exists s :: s in g.sounds && s.id == id && PlayFrom(s.seek, g.SpriteOf(s)) < g.SpriteOf(s).Stop()
  }

  // ---------------------------------------------------------------- a message for a known name

  method PauseIt(g: Howl, id: int, ghost s: Sound)
    requires g.Valid() && g.loaded && Ready(g, id) && s in g.sounds && s.id == id
    modifies g`endTimers, g.sounds
    ensures g.Valid() && g.SamePool() && Ready(g, id) && !g.IsPlaying(id) && g.Turned({id}, Event.Pause)
  {
    g.Pause(Some(id));
    g.TurnedNoLoops(Call({id}, Event.Pause));
    assert g.DeckOf(s).voice.paused == s.paused;
  }

  method PlayIt(g: Howl, id: int, ghost s: Sound)
    requires g.Valid() && g.loaded && Ready(g, id) && s in g.sounds && s.id == id && s.paused
    modifies g`endTimers, g`playCallbacks, g`queue, g`sounds, g.sounds, g.howler`counter, g.howler`issued
    ensures g.Valid() && g.SamePool() && Ready(g, id) && g.queue == old(g.queue) && g.Turned({id}, Event.Play)
    ensures g.IsPlaying(id) <==> old(PlayFrom(s.seek, g.SpriteOf(s)) < g.SpriteOf(s).Stop())
  {
    g.NoLoopsSafe({id});
    var r, resumed := g.Play(ById(id));
    assert id in old(g.Resumed(ById(id)));
    assert resumed == Some(id);
    assert g.DeckOf(s).voice.paused == s.paused;
  }

  /** On a loaded group: a playing sound is paused, and a paused one is played. */
  method Toggle(g: Howl, id: int)
    requires g.Valid() && g.loaded && Ready(g, id)
    modifies g`endTimers, g`playCallbacks, g`queue, g`sounds, g.sounds, g.howler`counter, g.howler`issued
    ensures g.Valid() && g.SamePool() && Ready(g, id) && g.queue == old(g.queue)
    ensures g.Turned({id}, if old(g.IsPlaying(id)) then Event.Pause else Event.Play)
    ensures g.IsPlaying(id) != old(g.IsPlaying(id)) <==> old(g.IsPlaying(id) || BeforeEnd(g, id))
  {
    ghost var s :| s in g.sounds && s.id == id;
    if g.IsPlaying(id) {
      PauseIt(g, id, s);
    } else {
      PlayIt(g, id, s);
    }
  }

  /** Before the group has loaded nothing plays, and the play joins the queue. */
  method PutOff(g: Howl, id: int)
    requires g.Valid() && !g.loaded && Ready(g, id)
    modifies g`endTimers, g`playCallbacks, g`queue, g`sounds, g.sounds, g.howler`counter, g.howler`issued
    ensures g.Valid() && g.IdsKept() && g.PoolWithin() && Ready(g, id) && g.queue == old(g.queue) + [id]
    ensures !g.loaded && !old(g.IsPlaying(id)) && !g.IsPlaying(id)
  {
    assert !g.spritesDefined;
    var r, resumed := g.Play(ById(id));
    assert id in old(g.Resumed(ById(id)));
    assert resumed == Some(id);
  }

  /**
   What a message for a known name does. On a loaded group the sound goes from playing to paused or back,
   unless it is paused at its end; before that the play joins the queue.
   */
  twostate predicate Answered(g: Howl, id: int)
    requires old(g.Structure())
    reads g, g.howler, g.sounds
  {
    if old(g.loaded) then
      && g.queue == old(g.queue) && g.Turned({id}, if old(g.IsPlaying(id)) then Event.Pause else Event.Play)
      && (g.IsPlaying(id) != old(g.IsPlaying(id)) <==> old(g.IsPlaying(id) || BeforeEnd(g, id)))
    else
      g.queue == old(g.queue) + [id] && !old(g.IsPlaying(id)) && !g.IsPlaying(id)
  }

  method Answer(g: Howl, id: int)
    requires g.Valid() && Ready(g, id)
    modifies g`endTimers, g`playCallbacks, g`queue, g`sounds, g.sounds, g.howler`counter, g.howler`issued
    ensures g.Valid() && g.IdsKept() && g.PoolWithin() && Ready(g, id) && Answered(g, id)
  {
    if g.loaded {
      Toggle(g, id);
    } else {
      PutOff(g, id);
    }
  }

  /** Every group but this one, and its sounds, are as they were. */
  twostate predicate OthersSame(howler: Howler, g: Howl)
    reads howler`howls, howler.howls, set h: Howl, i: int | h in howler.howls && 0 <= i < |h.sounds| :: h.sounds[i]
  {
    && howler.howls == old(howler.howls)
    && forall h :: h in howler.howls && h != g ==> unchanged(h) && forall s :: s in h.sounds ==> unchanged(s)
  }

  /** ... with every other group as it was. */
  method AnswerAmong(howler: Howler, g: Howl, id: int)
    requires howler.Valid() && g in howler.howls && Ready(g, id)
    modifies howler`counter, howler`issued, g, g.sounds
    ensures howler.Valid() && OthersSame(howler, g) && g.PoolWithin() && Ready(g, id) && Answered(g, id)
  {
    PlayerRuns.Separate(howler, g);
    Answer(g, id);
    PlayerRuns.OthersKept(PlayerRuns.Site(howler, g));
  }

  // ---------------------------------------------------------------- a message for a new name

  /** A group that is being opened: nothing queued, nothing in use, and if it has loaded, this long. */
  ghost predicate Opening(g: Howl, cached: Option<real>)
    reads g, g.sounds
  {
    && g.queue == [] && g.NoLoops() && (forall s :: s in g.sounds ==> s.ended)
    && g.spritesDefined == g.loaded
    && (g.loaded ==> cached.Some? && g.sprites == map[DEFAULT := Sprite(0.0, cached.value * 1000.0, false)])
    && (!g.loaded ==> g.sprites == map[DEFAULT := Sprite(0.0, 0.0, false)])
  }

  /** `load()` once more. */
  method LoadOnce(g: Howl, cached: Option<real>)
    requires g.Valid() && Opening(g, cached) && (cached.Some? ==> cached.value > 0.0) && (g.loaded ==> cached.Some?)
    modifies g`endTimers, g`playCallbacks, g`queue, g`sprites, g`spritesDefined, g`loaded, g`sounds, g.sounds,
             g.howler`counter, g.howler`issued
    ensures g.Valid() && g.IdsKept() && g.PoolWithin() && Opening(g, cached) && g.loaded == cached.Some?
    ensures |g.sounds| == |old(g.sounds)| + 1
  {
    var sound := g.Load(cached);
    if cached.Some? {
      assert map[DEFAULT := Sprite(0.0, 0.0, false)][DEFAULT := Sprite(0.0, cached.value * 1000.0, false)]
          == map[DEFAULT := Sprite(0.0, cached.value * 1000.0, false)];
    }
    forall i | 0 <= i < |g.sounds|
      ensures g.sounds[i] in old(g.sounds) || fresh(g.sounds[i])
    {
    }
    forall s | s in g.sounds
      ensures (s in old(g.sounds) && s.id == old(s.id)) || s.id !in old(g.howler.issued)
    {
    }
  }

  /** `play()` on a group whose sounds have all ended: a sound under an id never used before. */
  method FirstPlay(g: Howl, cached: Option<real>) returns (id: int)
    requires g.Valid() && Opening(g, cached) && (cached.Some? ==> cached.value > 0.0) && g.loaded == cached.Some?
    modifies g`endTimers, g`playCallbacks, g`queue, g`sounds, g.sounds, g.howler`counter, g.howler`issued
    ensures g.Valid() && g.IdsKept() && g.PoolWithin() && Ready(g, id) && id !in old(g.howler.issued)
    ensures g.loaded == cached.Some? && (g.loaded ==> g.IsPlaying(id))
    ensures g.queue == if g.loaded then [] else [id]
    ensures 0 < |old(g.sounds)| <= g.pool ==> g.sounds == old(g.sounds)
  {
    if g.sounds != [] {
      assert g.sounds[0] in g.EndedSounds();
    }
    assert g.Resumed(PlayArg.Default) == {};
    var r, resumed := g.Play(PlayArg.Default);
    if g.loaded {
      var sp := Sprite(0.0, cached.value * 1000.0, false);
      assert g.sprites[DEFAULT] == sp && sp.Stop() == cached.value;
    }
    id := r.value;
  }

  method LoadAmong(howler: Howler, g: Howl, cached: Option<real>)
    requires howler.Valid() && g in howler.howls && Opening(g, cached) && (cached.Some? ==> cached.value > 0.0)
    requires g.loaded ==> cached.Some?
    modifies howler`counter, howler`issued, g, g.sounds
    ensures howler.Valid() && g.PoolWithin() && Opening(g, cached) && g.loaded == cached.Some?
    ensures old(howler.issued) <= howler.issued && g.pool == old(g.pool) && g.rate == old(g.rate)
    ensures |g.sounds| == |old(g.sounds)| + 1
  {
    PlayerRuns.Separate(howler, g);
    LoadOnce(g, cached);
    PlayerRuns.OthersKept(PlayerRuns.Site(howler, g));
  }

  method FirstPlayAmong(howler: Howler, g: Howl, cached: Option<real>) returns (id: int)
    requires howler.Valid() && g in howler.howls && Opening(g, cached) && (cached.Some? ==> cached.value > 0.0)
    requires g.loaded == cached.Some?
    modifies howler`counter, howler`issued, g, g.sounds
    ensures howler.Valid() && g.PoolWithin() && Ready(g, id) && id !in old(howler.issued)
    ensures g.pool == old(g.pool) && g.rate == old(g.rate)
    ensures 0 < |old(g.sounds)| <= g.pool ==> g.sounds == old(g.sounds)
    ensures g.loaded == cached.Some? && (g.loaded ==> g.IsPlaying(id))
    ensures g.queue == if g.loaded then [] else [id]
  {
    PlayerRuns.Separate(howler, g);
    id := FirstPlay(g, cached);
    PlayerRuns.OthersKept(PlayerRuns.Site(howler, g));
  }

  /** `new Howl`, which loads, then `load()` again, then `play()`. A cached buffer has been loaded by then. */
  method Open(howler: Howler, cached: Option<real>) returns (g: Howl, id: int)
    requires howler.Valid() && (cached.Some? ==> cached.value > 0.0)
    modifies howler
    ensures howler.Valid() && fresh(g) && fresh(g.sounds) && howler.howls == old(howler.howls) + [g]
    ensures Ready(g, id) && id !in old(howler.issued)
    ensures g.pool == 5 && g.rate == 1.0 && |g.sounds| == 2
    ensures g.loaded == cached.Some? && (g.loaded ==> g.IsPlaying(id))
    ensures g.queue == if g.loaded then [] else [id]
  {
    g := PlayerRuns.NewGroup(howler, POOL, 1.0, false, map[]);
    LoadAmong(howler, g, cached);
    LoadAmong(howler, g, cached);
    id := FirstPlayAmong(howler, g, cached);
  }

  // ---------------------------------------------------------------- what the browser does in between

  /** A download has been decoded, a callback that emits 'play' runs, or an end timer fires. */
  datatype Happening =
    | Decoded(duration: real)
    | Callback
    | Timeout(index: nat, deadline: real)

  predicate Possible(g: Howl, h: Happening)
    reads g, g.howler, g.sounds
  {
    match h
    case Decoded(duration) => duration >= 0.0
    case Callback => g.playCallbacks > 0
    case Timeout(index, deadline) =>
      index < |g.sounds| && deadline in g.sounds[index].pending && deadline <= g.howler.now
  }

  /** What it does: the group has loaded and its queue has run once, the queue has stepped, or the sound has gone one step on. */
  twostate predicate Happened(g: Howl, h: Happening)
    requires old(g.Structure()) && old(Possible(g, h))
    reads g, g.howler, g.sounds
  {
    g.Structure() &&
    match h
    case Decoded(duration) =>
      && g.loaded
      && (!old(g.loaded) ==>
            g.QueueState()
            == PlayQueue.Next(PlayQueue.State(old(g.StagesOnLoad(duration)), old(g.queue), old(g.playCallbacks))))
    case Callback => g.loaded ==> g.QueueState() == PlayQueue.Callback(old(g.QueueState()))
    case Timeout(index, deadline) =>
      g.SameSounds() &&
      g.DeckOf(g.sounds[index])
      == Playhead.Step(old(g.DeckOf(g.sounds[index])), old(g.SpriteOf(g.sounds[index])), Event.Timeout(deadline))
  }

  method Happen(g: Howl, id: int, h: Happening)
    requires g.Valid() && g.QueueIssued() && Ready(g, id) && Possible(g, h)
    modifies g`endTimers, g`playCallbacks, g`queue, g`sprites, g`spritesDefined, g`loaded, g.sounds
    ensures g.Valid() && g.QueueIssued() && g.IdsKept() && Ready(g, id) && g.sounds == old(g.sounds) && Happened(g, h)
  {
    match h
    case Decoded(duration) => g.LoadDone(duration);
    case Callback => g.PlayCallback();
    case Timeout(index, deadline) =>
      ghost var which := g.sounds[index].id;
      g.Timeout(g.sounds[index], deadline);
      g.TurnedNoLoops(Call({which}, Event.Timeout(deadline)));
  }

  method HappenAmong(howler: Howler, g: Howl, id: int, h: Happening)
    requires howler.Valid() && g in howler.howls && Ready(g, id) && Possible(g, h)
    modifies g, g.sounds
    ensures howler.Valid() && OthersSame(howler, g) && g.PoolWithin() && Ready(g, id) && Happened(g, h)
  {
    PlayerRuns.Separate(howler, g);
    Happen(g, id, h);
    PlayerRuns.OthersKept(PlayerRuns.Site(howler, g));
  }

  // ---------------------------------------------------------------- the client

  class Page {
    const howler: Howler
    var ids: map<string, int>
    var groups: map<string, Howl>

    constructor (howler: Howler)
      requires howler.Valid()
      ensures Valid() && this.howler == howler && ids == map[] && groups == map[]
    {
      this.howler := howler;
      ids, groups := map[], map[];
    }

    /** Both maps know the same names, and each name has its own registered group, which has the stored sound. */
    ghost predicate Linked()
      reads this, howler`howls, howler.howls, set h: Howl, i: int | h in howler.howls && 0 <= i < |h.sounds| :: h.sounds[i]
    {
      && ids.Keys == groups.Keys
      && (forall n :: n in groups ==> groups[n] in howler.howls && Ready(groups[n], ids[n]))
      && (forall m, n :: m in groups && n in groups && groups[m] == groups[n] ==> m == n)
    }

    ghost predicate Valid()
      reads this, howler, howler.howls, set h: Howl, i: int | h in howler.howls && 0 <= i < |h.sounds| :: h.sounds[i]
    {
      howler.Valid() && Linked()
    }

    /** A group that nothing has touched is as ready as it was. */
    twostate lemma StillReady(name: string)
      requires name in old(groups) && name in old(ids) && old(Ready(groups[name], ids[name]))
      requires name in groups && name in ids && groups[name] == old(groups[name]) && ids[name] == old(ids[name])
      requires unchanged(groups[name]) && forall s :: s in groups[name].sounds ==> unchanged(s)
      ensures Ready(groups[name], ids[name])
    {
      var g, id := groups[name], ids[name];
      assert old(g.NoLoops()) && g.NoLoops();
      var s :| s in old(g.sounds) && old(s.id) == id;
      assert s in g.sounds && s.id == id;
    }

    /** A step confined to the group of one name, which stays ready, leaves the others ready. */
    twostate lemma OthersReady(name: string)
      requires old(Linked()) && name in groups && ids == old(ids) && groups == old(groups)
      requires OthersSame(howler, groups[name]) && Ready(groups[name], ids[name])
      ensures Linked()
    {
      forall n | n in groups
        ensures groups[n] in howler.howls && Ready(groups[n], ids[n])
      {
        if n != name {
          assert old(Ready(groups[n], ids[n])) && groups[n] != groups[name];
          StillReady(n);
        }
      }
    }

    /** A message for a name the page knows. */
    method Again(name: string)
      requires Valid() && name in groups
      modifies howler`counter, howler`issued, groups[name], groups[name].sounds
      ensures Valid() && ids == old(ids) && groups == old(groups)
      ensures Answered(groups[name], ids[name])
      ensures OthersSame(howler, groups[name]) && groups[name].PoolWithin()
    {
      var g, id := groups[name], ids[name];
      AnswerAmong(howler, g, id);
      assert unchanged(this) && OthersSame(howler, g) && Ready(g, id);
      OthersReady(name);
    }

    /** A new name with a group of its own, which is ready, leaves the others ready. */
    twostate lemma Joined(name: string)
      requires old(Linked()) && name !in old(groups) && name in groups && name in ids
      requires Kept() && (forall n :: n in groups <==> n == name || n in old(groups)) && ids.Keys == groups.Keys
      requires groups[name] in howler.howls && groups[name] !in old(howler.howls) && Ready(groups[name], ids[name])
      requires forall h :: h in old(howler.howls) ==>
                 h in howler.howls && unchanged(h) && forall s :: s in old(h.sounds) ==> unchanged(s)
      ensures Linked()
    {
      forall n | n in groups
        ensures groups[n] in howler.howls && Ready(groups[n], ids[n])
      {
        if n != name {
          assert old(Ready(groups[n], ids[n])) && old(groups[n]) in old(howler.howls);
          StillReady(n);
        }
      }
    }

    /** What is known stays: every name keeps its group and its sound's id. */
    twostate predicate Kept()
      reads this
    {
      && (forall n :: n in old(ids) ==> n in ids && ids[n] == old(ids[n]))
      && (forall n :: n in old(groups) ==> n in groups && groups[n] == old(groups[n]))
    }

    /** The group of a new name plays at once if its buffer was cached, and is about to otherwise. */
    ghost predicate JustOpened(name: string)
      requires name in groups && name in ids
      reads this, groups[name], groups[name].sounds
    {
      if groups[name].loaded then groups[name].IsPlaying(ids[name]) else groups[name].queue == [ids[name]]
    }

    method Remember(name: string, g: Howl, id: int)
      requires ids.Keys == groups.Keys && name !in groups
      modifies this
      ensures Kept() && (forall n :: n in groups <==> n == name || n in old(groups)) && ids.Keys == groups.Keys
      ensures groups[name] == g && ids[name] == id
    {
      groups := groups[name := g];
      ids := ids[name := id];
    }

    /** A message for a name the page does not know yet. */
    method First(name: string, cached: Option<real>)
      requires Valid() && name !in groups && (cached.Some? ==> cached.value > 0.0)
      modifies this, howler
      ensures name in groups && name in ids
      ensures Valid()
      ensures fresh(groups[name]) && fresh(groups[name].sounds)
      ensures howler.howls == old(howler.howls) + [groups[name]]
      ensures Kept() && forall n :: n in groups <==> n == name || n in old(groups)
      ensures ids[name] !in old(howler.issued) && JustOpened(name)
    {
      var g, id := Open(howler, cached);
      Remember(name, g, id);
      assert howler.Valid();
      Joined(name);
      assert Linked();
    }

    /** Something happens in the group of one name. */
    method On(name: string, h: Happening)
      requires Valid() && name in groups && Possible(groups[name], h)
      modifies groups[name], groups[name].sounds
      ensures Valid() && ids == old(ids) && groups == old(groups)
      ensures OthersSame(howler, groups[name]) && groups[name].PoolWithin() && Happened(groups[name], h)
    {
      HappenIn(groups[name], ids[name], h);
      OthersReady(name);
    }

    method HappenIn(g: Howl, id: int, h: Happening)
      requires howler.Valid() && g in howler.howls && Ready(g, id) && Possible(g, h)
      modifies g, g.sounds
      ensures unchanged(this) && howler.Valid() && OthersSame(howler, g) && g.PoolWithin()
      ensures Ready(g, id) && Happened(g, h)
    {
      HappenAmong(howler, g, id, h);
    }

    /** Time passes. */
    method Wait(dt: real)
      requires Valid() && dt >= 0.0
      modifies howler`now
      ensures Valid() && ids == old(ids) && groups == old(groups) && howler.now == old(howler.now) + dt
    {
      PlayerRuns.Tick(howler, dt);
    }

    method OnKnown(name: string)
      requires Valid() && name in groups
      modifies PlayerRuns.Reach(howler)
      ensures Valid() && ids == old(ids) && groups == old(groups) && Answered(groups[name], ids[name])
      ensures fresh(PlayerRuns.Reach(howler) - old(PlayerRuns.Reach(howler)))
    {
      PlayerRuns.Separate(howler, groups[name]);
      Again(name);
      PlayerRuns.NothingStrayed(PlayerRuns.Site(howler, groups[name]));
    }

    method OnNew(name: string, cached: Option<real>)
      requires Valid() && name !in groups && (cached.Some? ==> cached.value > 0.0)
      modifies this, howler
      ensures Valid() && Kept() && name in ids && name in groups
      ensures ids[name] !in old(howler.issued) && JustOpened(name)
      ensures fresh(PlayerRuns.Reach(howler) - old(PlayerRuns.Reach(howler)))
    {
      First(name, cached);
      OnlyNewReached(name);
    }

    /** `ws.onmessage`. */
    method OnMessage(name: string, cached: Option<real>)
      requires Valid() && (cached.Some? ==> cached.value > 0.0)
      modifies this, PlayerRuns.Reach(howler)
      ensures Valid() && Kept() && name in ids && name in groups
      ensures name in old(groups) ==> Answered(groups[name], ids[name])
      ensures name !in old(groups) ==> ids[name] !in old(howler.issued) && JustOpened(name)
      ensures fresh(PlayerRuns.Reach(howler) - old(PlayerRuns.Reach(howler)))
    {
      if name in ids {
        OnKnown(name);
      } else {
        OnNew(name, cached);
      }
    }

    twostate lemma OnlyNewReached(name: string)
      requires old(howler.Valid()) && name in groups && fresh(groups[name]) && fresh(groups[name].sounds)
      requires howler.howls == old(howler.howls) + [groups[name]]
      requires forall h :: h in old(howler.howls) ==> unchanged(h)
      ensures fresh(PlayerRuns.Reach(howler) - old(PlayerRuns.Reach(howler)))
    {
      forall h, i | h in howler.howls && 0 <= i < |h.sounds|
        ensures h.sounds[i] in old(PlayerRuns.Reach(howler)) || fresh(h.sounds[i])
      {
        if h in old(howler.howls) {
          assert old(h.sounds[i]) in old(PlayerRuns.Reach(howler));
        }
      }
    }

    /** Something happens in the group of one name, if it can. */
    method OnHappening(name: string, h: Happening)
      requires Valid()
      modifies PlayerRuns.Reach(howler)
      ensures Valid() && ids == old(ids) && groups == old(groups)
      ensures name in groups && old(Possible(groups[name], h)) ==> Happened(groups[name], h)
      ensures fresh(PlayerRuns.Reach(howler) - old(PlayerRuns.Reach(howler)))
    {
      if name in groups && Possible(groups[name], h) {
        PlayerRuns.Separate(howler, groups[name]);
        On(name, h);
        PlayerRuns.NothingStrayed(PlayerRuns.Site(howler, groups[name]));
      }
    }
  }

  datatype Step =
    | Message(name: string, cached: Option<real>)
    | Happens(name: string, h: Happening)
    | Wait(dt: real)

  method Perform(page: Page, step: Step)
    requires page.Valid()
    modifies page, PlayerRuns.Reach(page.howler)
    ensures page.Valid() && page.Kept() && fresh(PlayerRuns.Reach(page.howler) - old(PlayerRuns.Reach(page.howler)))
    ensures step.Message? && (step.cached.Some? ==> step.cached.value > 0.0) ==>
              && step.name in page.ids && step.name in page.groups
              && (step.name in old(page.groups) ==> Answered(page.groups[step.name], page.ids[step.name]))
              && (step.name !in old(page.groups) ==>
                    page.ids[step.name] !in old(page.howler.issued) && page.JustOpened(step.name))
    ensures step.Happens? && step.name in old(page.groups) && old(Possible(page.groups[step.name], step.h)) ==>
              step.name in page.groups && page.groups[step.name] == old(page.groups[step.name])
              && Happened(page.groups[step.name], step.h)
    ensures step.Wait? && step.dt >= 0.0 ==> page.howler.now == old(page.howler.now) + step.dt
  {
    match step
    case Message(name, cached) =>
      if cached.Some? ==> cached.value > 0.0 {
        page.OnMessage(name, cached);
      }
    case Happens(name, h) => page.OnHappening(name, h);
    case Wait(dt) =>
      if dt >= 0.0 {
        page.Wait(dt);
      }
  }

  /** ... as far as a run needs it. */
  method Go(page: Page, step: Step)
    requires page.Valid()
    modifies page, PlayerRuns.Reach(page.howler)
    ensures page.Valid() && page.Kept() && fresh(PlayerRuns.Reach(page.howler) - old(PlayerRuns.Reach(page.howler)))
  {
    Perform(page, step);
  }

  /** Over every run the two maps know the same names, and the id stored under a name stays in its group's pool. */
  method Run(page: Page, steps: seq<Step>)
    requires page.Valid()
    modifies page, PlayerRuns.Reach(page.howler)
    ensures page.Valid() && page.Kept()
  {
    for i := 0 to |steps|
      invariant page.Valid() && page.Kept() && fresh(PlayerRuns.Reach(page.howler) - old(PlayerRuns.Reach(page.howler)))
    {
      Go(page, steps[i]);
    }
  }
}
