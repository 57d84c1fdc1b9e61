/**
 Ownership of HTML5 audio nodes. Unlocked nodes wait in a pool; a new sound takes one, or makes one
 when the pool is empty; unloading a group gives its unlocked nodes back. A node has one owner.
 */
module AudioNodes {
  import opened Wrappers

  class Audio {
    var unlocked: bool

    constructor ()
      ensures !unlocked
    {
      unlocked := false;
    }
  }

  class Sound {
    var node: Audio?

    constructor ()
      ensures node == null
    {
      node := null;
    }
  }

  class Howl {
    var sounds: seq<Sound>

    constructor ()
      ensures sounds == []
    {
      sounds := [];
    }
  }

  class Controller {
    var free: seq<Audio>
    var poolSize: nat
    var noAudio: bool
    var howls: seq<Howl>
    // every sound and every group there ever was, also drained and unloaded ones
    ghost var everyone: set<Sound>
    ghost var groups: set<Howl>

    constructor (poolSize: nat)
      ensures Valid() && free == [] && howls == [] && everyone == {} && groups == {}
      ensures this.poolSize == poolSize && !noAudio
    {
      free, howls := [], [];
      this.poolSize := poolSize;
      noAudio := false;
      everyone, groups := {}, {};
    }

    /** No two sounds hold the same node, and none holds a free one. */
    ghost predicate OneOwner()
      reads `free, `everyone, everyone
    {
      && (forall s, t :: s in everyone && t in everyone && s.node != null && s.node == t.node ==> s == t)
      && (forall s :: s in everyone && s.node != null ==> s.node !in free)
    }

    /** The free pool has no duplicates and only unlocked nodes. */
    ghost predicate PoolOk()
      reads `free, free
    {
      && (forall i, j :: 0 <= i < j < |free| ==> free[i] != free[j])
      && (forall i :: 0 <= i < |free| ==> free[i].unlocked)
    }

    ghost predicate Registered()
      reads `howls, `everyone, `groups, groups
    {
      && (forall h :: h in howls ==> h in groups)
      && (forall h, i :: h in groups && 0 <= i < |h.sounds| ==> h.sounds[i] in everyone)
      && (forall h, i, j :: h in groups && 0 <= i < j < |h.sounds| ==> h.sounds[i] != h.sounds[j])
    }

    ghost predicate Valid()
      reads this, free, everyone, groups
    {
      OneOwner() && PoolOk() && Registered()
    }

    /** `_releaseHtml5Audio`: a node not known to be unlocked is not kept. */
    method Release(audio: Audio)
      requires PoolOk() && audio !in free
      modifies `free
      ensures PoolOk() && free == old(free) + if audio.unlocked then [audio] else []
    {
      if audio.unlocked {
        free := free + [audio];
      }
    }

    /** `_obtainHtml5Audio`: the last free node, or a new one, not yet unlocked. */
    method Obtain() returns (audio: Audio)
      requires PoolOk()
      modifies `free
      ensures PoolOk()
      ensures if old(free) != []
              then free == old(free)[..|old(free)| - 1] && audio == old(free)[|old(free)| - 1] && audio !in free
              else free == [] && fresh(audio) && !audio.unlocked
    {
      if free != [] {
        audio := free[|free| - 1];
        free := free[..|free| - 1];
      } else {
        audio := new Audio();
      }
    }

    /** The refill loop of an unlock. `failAt` is the constructor call that throws, if one does. */
    method Refill(failAt: Option<nat>)
      requires PoolOk()
      modifies `free, `noAudio
      ensures PoolOk() && |old(free)| <= |free| && free[..|old(free)|] == old(free)
      ensures forall i :: |old(free)| <= i < |free| ==> fresh(free[i])
      ensures if failAt.Some? && |old(free)| + failAt.value < poolSize
              then noAudio && |free| == |old(free)| + failAt.value
              else noAudio == old(noAudio) && |free| == if |old(free)| < poolSize then poolSize else |old(free)|
    {
      var made := 0;
      while |free| < poolSize
        invariant PoolOk() && |free| == |old(free)| + made && free[..|old(free)|] == old(free)
        invariant forall i :: |old(free)| <= i < |free| ==> fresh(free[i])
        invariant noAudio == old(noAudio) && (|free| <= poolSize || free == old(free))
        invariant failAt.Some? ==> made <= failAt.value
        decreases poolSize - |free|
      {
        if failAt == Some(made) {
          noAudio := true;
          break;
        }
        var audio := new Audio();
        audio.unlocked := true;
        Release(audio);
        made := made + 1;
      }
    }

    /** The nodes of a group's sounds are marked as unlocked. */
    method UnlockHeld(howl: Howl)
      modifies (set s | s in howl.sounds && s.node != null :: s.node)`unlocked
      ensures forall i :: 0 <= i < |howl.sounds| && howl.sounds[i].node != null ==> howl.sounds[i].node.unlocked
    {
      for i := 0 to |howl.sounds|
        invariant forall j :: 0 <= j < i && howl.sounds[j].node != null ==> howl.sounds[j].node.unlocked
      {
        var node := howl.sounds[i].node;
        if node != null && !node.unlocked {
          node.unlocked := true;
        }
      }
    }

    /** `Sound.init` and `Sound.create`: without audio the sound gets no node. */
    method CreateSound(howl: Howl) returns (sound: Sound)
      requires Valid() && howl in groups
      modifies `free, `everyone, howl
      ensures Valid() && fresh(sound)
      ensures howl.sounds == old(howl.sounds) + [sound] && everyone == old(everyone) + {sound}
      ensures noAudio ==> sound.node == null && free == old(free)
      ensures !noAudio && old(free) != [] ==>
                sound.node == old(free)[|old(free)| - 1] && free == old(free)[..|old(free)| - 1]
      ensures !noAudio && old(free) == [] ==> sound.node != null && fresh(sound.node) && free == []
    {
      sound := new Sound();
      if !noAudio {
        var node := Obtain();
        sound.node := node;
      }
      everyone := everyone + {sound};
      howl.sounds := howl.sounds + [sound];
    }

    /** One cut of `_drain`: a sound leaves the pool, and takes its node with it. Which ones go is `Drain`'s matter. */
    method Drop(howl: Howl, index: nat)
      requires Valid() && howl in groups && index < |howl.sounds|
      modifies howl
      ensures Valid() && howl.sounds == old(howl.sounds)[..index] + old(howl.sounds)[index + 1..]
    {
      howl.sounds := howl.sounds[..index] + howl.sounds[index + 1..];
    }

    /** `new Howl`. */
    method CreateHowl() returns (howl: Howl)
      requires Valid()
      modifies `howls, `groups
      ensures Valid() && fresh(howl) && howl.sounds == []
      ensures howls == old(howls) + [howl] && groups == old(groups) + {howl}
    {
      howl := new Howl();
      howls := howls + [howl];
      groups := groups + {howl};
    }

    /** The unlocked nodes of these sounds, in order. */
    static function Unlocked(sounds: seq<Sound>): seq<Audio>
      reads sounds, set s | s in sounds && s.node != null :: s.node
    {
      if sounds == [] then []
      else
        var rest := Unlocked(sounds[..|sounds| - 1]);
        var node := sounds[|sounds| - 1].node;
        if node != null && node.unlocked then rest + [node] else rest
    }

    static predicate AllHold(sounds: seq<Sound>)
      reads sounds
    {
      forall i :: 0 <= i < |sounds| ==> sounds[i].node != null
    }

    /** One round of `unload`: the node is released and the sound lets go of it. */
    method LetGo(sound: Sound)
      requires OneOwner() && PoolOk() && sound in everyone && sound.node != null
      modifies `free, sound`node
      ensures OneOwner() && PoolOk() && sound.node == null
      ensures free == old(free) + if old(sound.node.unlocked) then [old(sound.node)] else []
    {
      Release(sound.node);
      sound.node := null;
    }

    /** The loop of `unload`: nodes are released one after another, up to the first sound that never got one. */
    method LetGoEach(howl: Howl) returns (n: nat)
      requires Valid() && howl in groups
      modifies `free, (set s | s in howl.sounds)`node
      ensures Valid() && n <= |howl.sounds|
      ensures n < |howl.sounds| ==> old(howl.sounds[n].node) == null
      ensures forall j :: 0 <= j < n ==> old(howl.sounds[j].node) != null && howl.sounds[j].node == null
      ensures forall j :: n <= j < |howl.sounds| ==> howl.sounds[j].node == old(howl.sounds[j].node)
      ensures free == old(free) + old(Unlocked(howl.sounds[..n]))
    {
      ghost var sounds := howl.sounds;
      for i := 0 to |howl.sounds|
        invariant Valid() && howl.sounds == sounds
        invariant forall j :: 0 <= j < i ==> old(sounds[j].node) != null && sounds[j].node == null
        invariant forall j :: i <= j < |sounds| ==> sounds[j].node == old(sounds[j].node)
        invariant free == old(free) + old(Unlocked(sounds[..i]))
      {
        if howl.sounds[i].node == null {
          return i;
        }
        LetGo(howl.sounds[i]);
        assert sounds[..i + 1][..i] == sounds[..i];
      }
      n := |howl.sounds|;
    }

    /**
     `unload`: every sound's node is released in turn and the group is forgotten. A sound that never got
     a node makes it throw: the nodes before it are released, everything else stays.
     */
    method Unload(howl: Howl) returns (completed: bool)
      requires Valid() && howl in groups
      modifies `free, `howls, `noAudio, howl`sounds, (set s | s in howl.sounds)`node
      ensures Valid() && completed == old(AllHold(howl.sounds))
      ensures forall s :: s in old(howl.sounds) ==> s.node == null || (!completed && s.node == old(s.node))
      ensures completed ==>
                && free == old(free) + old(Unlocked(howl.sounds)) && howl.sounds == [] && !noAudio
                && howls == RemoveFirst(old(howls), howl)
      ensures !completed ==>
                && howls == old(howls) && howl.sounds == old(howl.sounds) && noAudio == old(noAudio)
                && exists n ::
                     0 <= n < |howl.sounds| && old(howl.sounds[n].node) == null && old(AllHold(howl.sounds[..n]))
                            && free == old(free) + old(Unlocked(howl.sounds[..n]))
    {
      var n := LetGoEach(howl);
      completed := n == |howl.sounds|;
      if completed {
        assert howl.sounds[..n] == howl.sounds;
        howls := RemoveFirst(howls, howl);
        RemoveFirstSubset(old(howls), howl);
        noAudio := false;
        howl.sounds := [];
      } else {
        assert old(AllHold(howl.sounds[..n]));
      }
    }

    /** This sound is in the pool of a registered group. */
    ghost predicate InPools(s: Sound)
      reads `howls, howls
    {
      exists h, i :: h in howls && 0 <= i < |h.sounds| && h.sounds[i] == s
    }

    /** The nodes held by registered groups are unlocked, and no others. */
    method UnlockAllHeld()
      requires Valid()
      modifies (set s | s in everyone && s.node != null :: s.node)`unlocked
      ensures Valid()
      ensures forall h, i :: h in howls && 0 <= i < |h.sounds| && h.sounds[i].node != null ==> h.sounds[i].node.unlocked
      ensures forall s :: s in everyone && s.node != null && !InPools(s) ==> s.node.unlocked == old(s.node.unlocked)
    {
      ghost var taken := set s | s in everyone && s.node != null :: s.node;
      for k := 0 to |howls|
        invariant Valid()
        invariant forall s :: s in everyone && s.node != null ==> s.node in taken
        invariant forall s :: s in everyone && s.node != null && !InPools(s) ==> s.node.unlocked == old(s.node.unlocked)
        invariant forall l, i :: 0 <= l < k && 0 <= i < |howls[l].sounds| && howls[l].sounds[i].node != null ==>
                    howls[l].sounds[i].node.unlocked
      {
        UnlockHeld(howls[k]);
      }
    }

    /** A touch: the pool is refilled, then every node held by a registered group is unlocked. */
    method Unlock(failAt: Option<nat>)
      requires Valid()
      modifies `free, `noAudio, (set s | s in everyone && s.node != null :: s.node)`unlocked
      ensures Valid() && |old(free)| <= |free| && free[..|old(free)|] == old(free)
      ensures if failAt.Some? && |old(free)| + failAt.value < poolSize
              then noAudio && |free| == |old(free)| + failAt.value
              else noAudio == old(noAudio) && |free| == if |old(free)| < poolSize then poolSize else |old(free)|
      ensures forall a :: a in free ==> a in old(free) || fresh(a)
      ensures forall h, i :: h in howls && 0 <= i < |h.sounds| && h.sounds[i].node != null ==> h.sounds[i].node.unlocked
      ensures forall s :: s in everyone && s.node != null && !InPools(s) ==> s.node.unlocked == old(s.node.unlocked)
    {
      Refill(failAt);
      forall i | 0 <= i < |free|
        ensures free[i] in old(free) || fresh(free[i])
      {
        assert i < |old(free)| ==> free[i] == free[..|old(free)|][i];
      }
      assert forall s :: s in everyone && s.node != null ==> s.node !in free;
      UnlockAllHeld();
    }

    /** An HTML5 play that succeeds also shows that its node is unlocked. */
    method Played(sound: Sound)
      requires Valid() && sound in everyone
      modifies (if sound.node == null then {} else {sound.node})`unlocked
      ensures Valid() && (sound.node != null ==> sound.node.unlocked)
    {
      if sound.node != null {
        var node := sound.node;
        node.unlocked := true;
      }
    }
  }

  lemma {:induction false} RemoveFirstSubset<T>(xs: seq<T>, x: T)
    ensures forall y :: y in RemoveFirst(xs, x) ==> y in xs
  {
    if xs != [] {
      RemoveFirstSubset(xs[1..], x);
    }
  }

  datatype Step =
    | Touch(failAt: Option<nat>)
    | New
    | Add(group: nat)
    | Drop(group: nat, index: nat)
    | Unload(group: nat)
    | Play(group: nat, index: nat)

  /** Everything a run may touch. */
  ghost function Reach(c: Controller): set<object>
    reads c, c.groups, c.everyone
  {
    {c} + (set h | h in c.groups :: h as object) + (set s | s in c.everyone :: s as object)
        + (set s | s in c.everyone && s.node != null :: s.node as object) + (set a | a in c.free :: a as object)
  }

  lemma Within(c: Controller, howl: Howl)
    requires c.Valid() && howl in c.howls
    ensures howl in c.groups && howl in Reach(c)
    ensures forall i :: 0 <= i < |howl.sounds| ==> howl.sounds[i] in c.everyone && howl.sounds[i] in Reach(c)
    ensures forall i :: 0 <= i < |howl.sounds| && howl.sounds[i].node != null ==> howl.sounds[i].node in Reach(c)
  {
  }

  /** Groups, sounds and nodes that were not there before are newly allocated. */
  twostate lemma StaysWithin(c: Controller)
    requires c.groups == old(c.groups)
    requires forall s :: s in c.everyone ==> s in old(c.everyone) || fresh(s)
    requires forall s :: s in c.everyone && s in old(c.everyone) ==> s.node == null || s.node == old(s.node)
    requires forall s :: s in c.everyone && s !in old(c.everyone) && s.node != null ==>
               s.node in old(c.free) || fresh(s.node)
    requires forall a :: a in c.free ==> a in old(Reach(c))
    ensures fresh(Reach(c) - old(Reach(c)))
  {
    forall o | o in Reach(c)
      ensures o in old(Reach(c)) || fresh(o)
    {
    }
  }

  /** What a call on a group does to the group's pool and to the free nodes. */
  twostate predicate Did(c: Controller, new deed: Deed)
    requires deed.howl in old(c.howls) && old(allocated(deed.howl))
    reads c, deed.howl, deed.howl.sounds
  {
    var was, now := old(deed.howl.sounds), deed.howl.sounds;
    match deed.step
    case Add(_) =>
      && |now| == |was| + 1 && now[..|was|] == was && c.howls == old(c.howls)
      && (c.noAudio ==> now[|was|].node == null && c.free == old(c.free))
      && (!c.noAudio && old(c.free) != [] ==>
            now[|was|].node == old(c.free)[|old(c.free)| - 1] && c.free == old(c.free)[..|old(c.free)| - 1])
      && (!c.noAudio && old(c.free) == [] ==> now[|was|].node != null && c.free == [])
    case Drop(_, index) =>
      now == (if index < |was| then was[..index] + was[index + 1..] else was) && c.free == old(c.free) && c.howls == old(c.howls)
    case Unload(_) =>
      if old(Controller.AllHold(deed.howl.sounds))
      then now == [] && c.free == old(c.free) + old(Controller.Unlocked(deed.howl.sounds))
           && c.howls == RemoveFirst(old(c.howls), deed.howl)
      else now == was && c.howls == old(c.howls)
    case Play(_, index) =>
      now == was && c.free == old(c.free) && c.howls == old(c.howls)
      && (index < |was| && was[index].node != null ==> was[index].node == old(was[index].node))
    case _ => true
  }

  datatype Deed = Deed(howl: Howl, step: Step)

  method AddTo(c: Controller, howl: Howl, group: nat)
    requires c.Valid() && howl in c.howls
    modifies c, Reach(c)
    ensures c.Valid() && fresh(Reach(c) - old(Reach(c))) && Did(c, Deed(howl, Add(group)))
  {
    Within(c, howl);
    var sound := c.CreateSound(howl);
    forall a | a in c.free
      ensures a in old(Reach(c))
    {
      assert a in old(c.free);
    }
    StaysWithin(c);
  }

  method UnloadOf(c: Controller, howl: Howl, group: nat)
    requires c.Valid() && howl in c.howls
    modifies c, Reach(c)
    ensures c.Valid() && fresh(Reach(c) - old(Reach(c))) && Did(c, Deed(howl, Step.Unload(group)))
  {
    Within(c, howl);
    forall n | 0 <= n <= |howl.sounds|
      ensures forall a :: a in Controller.Unlocked(howl.sounds[..n]) ==> a in Reach(c)
    {
      UnlockedWithin(c, howl, n);
    }
    assert howl.sounds[..|howl.sounds|] == howl.sounds;
    var _ := c.Unload(howl);
    StaysWithin(c);
  }

  /** A call on one registered group; one that names no sound does nothing. */
  method On(c: Controller, howl: Howl, st: Step)
    requires c.Valid() && howl in c.howls && (st.Add? || st.Drop? || st.Unload? || st.Play?)
    modifies c, Reach(c)
    ensures c.Valid() && fresh(Reach(c) - old(Reach(c))) && Did(c, Deed(howl, st))
    ensures st.Play? && st.index < |howl.sounds| && howl.sounds[st.index].node != null ==>
              howl.sounds[st.index].node.unlocked
  {
    Within(c, howl);
    match st
    case Add(group) => AddTo(c, howl, group);
    case Drop(_, index) =>
      if index < |howl.sounds| {
        c.Drop(howl, index);
      }
    case Unload(group) => UnloadOf(c, howl, group);
    case Play(_, index) =>
      if index < |howl.sounds| {
        c.Played(howl.sounds[index]);
      }
  }

  lemma {:induction false} UnlockedWithin(c: Controller, howl: Howl, n: nat)
    requires c.Valid() && howl in c.howls && n <= |howl.sounds|
    ensures forall a :: a in Controller.Unlocked(howl.sounds[..n]) ==> a in Reach(c)
  {
    if n > 0 {
      Within(c, howl);
      assert howl.sounds[..n][..n - 1] == howl.sounds[..n - 1];
      UnlockedWithin(c, howl, n - 1);
    }
  }

  /** One step; a step on a group that is not there does nothing. */
  method Perform(c: Controller, st: Step)
    requires c.Valid()
    modifies c, Reach(c)
    ensures c.Valid() && fresh(Reach(c) - old(Reach(c)))
    ensures st.Touch? && st.failAt == None ==> |c.free| >= c.poolSize
    ensures st.Touch? ==> forall h, i :: h in c.howls && 0 <= i < |h.sounds| && h.sounds[i].node != null ==>
                            h.sounds[i].node.unlocked
    ensures st.New? ==> |c.howls| == |old(c.howls)| + 1 && old(c.howls) <= c.howls
    ensures (st.Add? || st.Drop? || st.Unload? || st.Play?) && st.group < |old(c.howls)| ==>
              Did(c, Deed(old(c.howls[st.group]), st))
  {
    match st
    case Touch(failAt) => c.Unlock(failAt);
    case New => var _ := c.CreateHowl();
    case _ =>
      if st.group < |c.howls| {
        On(c, c.howls[st.group], st);
      }
  }

  /** Over any run of touches, creations, drains, plays and unloads every node keeps at most one owner. */
  method Run(c: Controller, steps: seq<Step>)
    requires c.Valid()
    modifies c, Reach(c)
    ensures c.Valid()
  {
    for i := 0 to |steps|
      invariant c.Valid() && fresh(Reach(c) - old(Reach(c)))
    {
      Perform(c, steps[i]);
    }
  }
}
