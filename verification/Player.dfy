/**
 The Web Audio player: `Howler` numbers sounds and keeps the groups, a `Howl` owns a pool of `Sound`
 objects and the end timers bound to them. Every operation is tied to `Playhead.Step` on the one
 sound it addresses; what holds of those steps is proved in `Playhead` and `PlayheadRuns`.
 */
module Player {
  import opened Wrappers
  import opened Playhead
  import Draining
  import PlayQueue

  const DEFAULT := "__default"
  const FIRST_COUNTER := 1000

  /** An entry of `_endTimers`: the live timeout's deadline and the Sound its callback is bound to. */
  datatype Timer = Timer(deadline: real, sound: Sound)

  /** How `play` may be called: with a sound's id, with a sprite's name, or with nothing. */
  datatype PlayArg = ById(id: int) | BySprite(name: string) | Default

  /** The sounds a call addresses and the step it asks of them. */
  datatype Call = Call(ids: set<int>, event: Event)

  class Howler {
    var counter: int
    var now: real
    var howls: seq<Howl>
    ghost var issued: set<int>

    constructor ()
      ensures Valid() && howls == [] && fresh(this)
    {
      counter := FIRST_COUNTER;
      now := 0.0;
      howls := [];
      issued := {};
    }

    /** Every id ever handed out is above 1000 and at most the counter. */
    ghost predicate Counting()
      reads this
    {
      counter >= FIRST_COUNTER && forall k :: k in issued ==> FIRST_COUNTER < k <= counter
    }

    method NextId() returns (id: int)
      requires Counting()
      modifies this`counter, this`issued
      ensures Counting()
      ensures id == counter == old(counter) + 1
      ensures id !in old(issued) && issued == old(issued) + {id}
    {
      counter := counter + 1;
      issued := issued + {counter};
      id := counter;
    }

    ghost predicate Valid()
      reads this, howls, set h: Howl, i: int | h in howls && 0 <= i < |h.sounds| :: h.sounds[i]
    {
      && Counting()
      && (forall i, j :: 0 <= i < j < |howls| ==> howls[i] != howls[j])
      && (forall h :: h in howls ==> h.howler == this && h.Valid() && h.QueueIssued())
      && (forall g, h, s, t :: g in howls && h in howls && s in g.sounds && t in h.sounds && s.id == t.id ==> s == t)
    }
  }

  class Sound {
    const parent: Howl
    var id: int
    var sprite: string
    var seek: real
    var rateSeek: real
    var paused: bool
    var ended: bool
    var start: Option<real>
    var stop: Option<real>
    var loop: bool
    var rate: real
    var playStart: real
    var bufferSource: bool
    // deadlines of the timeouts the browser still holds whose callback is `_ended` bound to this Sound
    var pending: multiset<real>

    function State(): Voice
      reads this
    {
      Voice(seek, rateSeek, paused, ended, start, stop, loop, rate, playStart, bufferSource)
    }

    /** `Sound.init`, up to pushing itself onto the parent's pool. */
    constructor (howl: Howl, id: int)
      ensures parent == howl && this.id == id && sprite == DEFAULT && pending == multiset{}
      ensures State() == Voice(0.0, 0.0, true, true, None, None, howl.loop, howl.rate, 0.0, false)
    {
      this.parent := howl;
      this.id := id;
      this.sprite := DEFAULT;
      this.seek, this.rateSeek := 0.0, 0.0;
      this.paused, this.ended := true, true;
      this.start, this.stop := None, None;
      this.loop, this.rate := howl.loop, howl.rate;
      this.playStart, this.bufferSource := 0.0, false;
      this.pending := multiset{};
    }

    /** `Sound.reset`: everything but `_start`, `_stop` and the node goes back to its first value. */
    method Reset()
      requires parent.howler.Counting()
      modifies this, parent.howler`counter, parent.howler`issued
      ensures parent.howler.Counting()
      ensures id == parent.howler.counter == old(parent.howler.counter) + 1
      ensures id !in old(parent.howler.issued) && parent.howler.issued == old(parent.howler.issued) + {id}
      ensures sprite == DEFAULT && pending == old(pending)
      ensures State() == old(State()).(seek := 0.0, rateSeek := 0.0, paused := true, ended := true,
                                       loop := parent.loop, rate := parent.rate)
    {
      SetFirstValues();
      id := parent.howler.NextId();
    }

    method SetFirstValues()
      modifies this
      ensures id == old(id) && sprite == DEFAULT && pending == old(pending)
      ensures State() == old(State()).(seek := 0.0, rateSeek := 0.0, paused := true, ended := true,
                                       loop := parent.loop, rate := parent.rate)
    {
      loop, rate := parent.loop, parent.rate;
      seek, rateSeek := 0.0, 0.0;
      paused, ended := true, true;
      sprite := DEFAULT;
    }

    /** Only the transport fields may change. */
    twostate predicate SameIdentity()
      reads this
    {
      id == old(id) && sprite == old(sprite) && pending == old(pending)
    }

    /** `_ended` on a loop: back to the start, still in whatever state it was. */
    method Rewind(now: real)
      modifies this
      ensures SameIdentity()
      ensures State() == old(State()).(seek := old(start).GetOr(0.0), rateSeek := 0.0, playStart := now)
    {
      seek := start.GetOr(0.0);
      rateSeek := 0.0;
      playStart := now;
    }

    /** `stop`, and `_ended` without a loop: back to the start, paused and ended, buffer source dropped. */
    method Rest()
      modifies this
      ensures SameIdentity()
      ensures State() == old(State()).(seek := old(start).GetOr(0.0), rateSeek := 0.0, paused := true, ended := true,
                                       bufferSource := false)
    {
      paused := true;
      ended := true;
      seek := start.GetOr(0.0);
      rateSeek := 0.0;
      bufferSource := false;
    }

    /** `setParams` and the start of the buffer source. */
    method SetParams(seek: real, start: real, stop: real, spriteLoop: bool, now: real)
      modifies this
      ensures SameIdentity()
      ensures State() == old(State()).(ended := false, paused := false, seek := seek, start := Some(start),
                                       stop := Some(stop), loop := old(loop) || spriteLoop, playStart := now,
                                       bufferSource := true)
    {
      this.ended := false;
      this.paused := false;
      this.seek := seek;
      this.start := Some(start);
      this.stop := Some(stop);
      this.loop := this.loop || spriteLoop;
      this.bufferSource := true;
      this.playStart := now;
    }

    /** `seek(x, id)`: move the track; a moved sound no longer counts as ended. */
    method MoveTo(position: real)
      modifies this
      ensures SameIdentity()
      ensures State() == old(State()).(seek := position, ended := false)
    {
      seek := position;
      ended := false;
    }

    /** `rate(r, id)` on a playing sound: the position so far becomes the base for the new rate. */
    method Rebase(position: real, now: real)
      modifies this
      ensures SameIdentity()
      ensures State() == old(State()).(rateSeek := position, playStart := now)
    {
      rateSeek := position;
      playStart := now;
    }

    /** `pause`: the computed position becomes the stored one. */
    method Hold(position: real)
      modifies this
      ensures SameIdentity()
      ensures State() == old(State()).(seek := position, rateSeek := 0.0, paused := true, bufferSource := false)
    {
      seek := position;
      rateSeek := 0.0;
      paused := true;
      bufferSource := false;
    }
  }

  class Howl {
    const howler: Howler
    var sounds: seq<Sound>
    var endTimers: map<int, Timer>
    var sprites: map<string, Sprite>
    var spritesDefined: bool
    var pool: nat
    var rate: real
    var loop: bool
    var loaded: bool
    // deferred plays, by sound id, and the `setTimeout(..., 0)` callbacks that will emit 'play'
    var queue: seq<int>
    var playCallbacks: nat

    /** `Howl.init` up to loading: an empty pool, registered with the controller. Without sprites of its own
        the group gets `__default` when it loads; until then nothing reads it. */
    constructor (howler: Howler, pool: nat, rate: real, loop: bool, sprites: map<string, Sprite>)
      requires howler.Counting() && rate != 0.0
      requires forall n :: n in sprites ==> sprites[n].Valid()
      requires sprites == map[] || DEFAULT in sprites
      modifies howler`howls
      ensures this.howler == howler && howler.howls == old(howler.howls) + [this]
      ensures Valid() && sounds == [] && endTimers == map[] && !loaded && queue == []
      ensures this.pool == pool && this.rate == rate && this.loop == loop
      ensures this.spritesDefined == (sprites != map[])
      ensures this.sprites == if sprites == map[] then map[DEFAULT := Sprite(0.0, 0.0, false)] else sprites
    {
      this.howler := howler;
      this.sounds := [];
      this.endTimers := map[];
      this.sprites := if sprites == map[] then map[DEFAULT := Sprite(0.0, 0.0, false)] else sprites;
      this.spritesDefined := sprites != map[];
      this.pool, this.rate, this.loop := pool, rate, loop;
      this.loaded := false;
      this.queue, this.playCallbacks := [], 0;
      new;
      howler.howls := howler.howls + [this];
    }

    // ------------------------------------------------------------ abstraction and invariant

    function DeckOf(s: Sound): Deck
      reads this`endTimers, howler`now, s
    {
      Deck(s.State(), howler.now, if s.id in endTimers then Some(endTimers[s.id].deadline) else None, s.pending)
    }

    function SpriteOf(s: Sound): Sprite
      requires s.sprite in sprites
      reads this`sprites, s`sprite
    {
      sprites[s.sprite]
    }

    /** The pool, the ids and the keys of `_endTimers` fit together. */
    ghost predicate Structure()
      reads `sounds, `endTimers, `sprites, `rate, howler, sounds
    {
      && howler.Counting()
      && (forall i, j :: 0 <= i < j < |sounds| ==> sounds[i] != sounds[j])
      && (forall s :: s in sounds ==> s.parent == this && s.id in howler.issued && s.sprite in sprites)
      && (forall s, t :: s in sounds && t in sounds && s.id == t.id ==> s == t)
      && (forall k :: k in endTimers ==> endTimers[k].sound in sounds && endTimers[k].sound.id == k)
      && DEFAULT in sprites && (forall n :: n in sprites ==> sprites[n].Valid())
      && rate != 0.0
    }

    /** This sound keeps the timer discipline. */
    ghost predicate SoundOk(s: Sound)
      requires s.sprite in sprites
      reads `endTimers, `sprites, howler`now, s
    {
      DeckOk(DeckOf(s), SpriteOf(s))
    }

    ghost predicate Valid()
      reads `sounds, `endTimers, `sprites, `rate, `spritesDefined, `loaded, howler, sounds
    {
      && Structure()
      && (forall s {:trigger SoundOk(s)} :: s in sounds ==> SoundOk(s))
      && (!spritesDefined ==> !loaded && forall s :: s in sounds ==> s.paused)
    }

    /** Nothing but the sounds' own fields and the end timers has changed, and no id or sprite has. */
    twostate predicate SamePool()
      reads `sounds, `endTimers, `sprites, `spritesDefined, `pool, `loaded, howler, sounds
    {
      && sounds == old(sounds) && sprites == old(sprites) && spritesDefined == old(spritesDefined)
      && pool == old(pool) && loaded == old(loaded)
      && howler.counter == old(howler.counter) && howler.issued == old(howler.issued) && howler.now == old(howler.now)
      && forall s :: s in sounds ==> s.id == old(s.id) && s.sprite == old(s.sprite)
    }

    /** Every sound of the pool is an old one with its old id, or has an id never issued before. */
    twostate predicate IdsKept()
      reads `sounds, howler, sounds
    {
      && howler.Counting() && howler.counter >= old(howler.counter) && old(howler.issued) <= howler.issued
      && forall s :: s in sounds ==> (s in old(sounds) && s.id == old(s.id)) || s.id !in old(howler.issued)
    }

    /** This sound's deck is now d; every other deck is untouched. */
    twostate predicate Became(sound: Sound, d: Deck)
      requires old(Structure())
      reads `sounds, `endTimers, `sprites, `spritesDefined, `pool, `loaded, howler, sounds, sound
    {
      && SamePool()
      && DeckOf(sound) == d
      && forall s :: s in sounds && s != sound ==> DeckOf(s) == old(DeckOf(s))
    }

    /** The pool is the same, with the same ids. */
    twostate predicate SameSounds()
      reads `sounds, sounds
    {
      sounds == old(sounds) && forall s :: s in sounds ==> s.id == old(s.id)
    }

    /** No sound that plays is touched. */
    twostate predicate PlayingKept()
      requires old(Structure())
      reads `sounds, `endTimers, howler, sounds
    {
      && SameSounds() && howler.now == old(howler.now)
      && (forall s :: s in sounds ==> s.sprite == old(s.sprite))
      && (forall s :: s in sounds && !old(DeckOf(s)).voice.paused ==> DeckOf(s) == old(DeckOf(s)))
    }

    /** Every sound whose id is listed has made the step; every other deck is untouched. */
    twostate predicate Turned(ids: set<int>, e: Event)
      requires old(Structure())
      reads `sounds, `endTimers, `sprites, `spritesDefined, `pool, `loaded, howler, sounds
    {
      && SamePool()
      && (forall s :: s in sounds && s.id in ids ==> DeckOf(s) == Step(old(DeckOf(s)), old(SpriteOf(s)), e))
      && (forall s :: s in sounds && s.id !in ids ==> DeckOf(s) == old(DeckOf(s)))
    }

    // ------------------------------------------------------------ timers

    method SoundById(id: int) returns (sound: Sound?)
      ensures sound != null ==> sound in sounds && sound.id == id
      ensures sound == null ==> forall s :: s in sounds ==> s.id != id
    {
      for i := 0 to |sounds|
        invariant forall j :: 0 <= j < i ==> sounds[j].id != id
      {
        if sounds[i].id == id {
          return sounds[i];
        }
      }
      return null;
    }

    method DropTimer(sound: Sound)
      requires Structure() && sound in sounds && sound.id in endTimers
      modifies this`endTimers, sound`pending
      ensures Structure() && Became(sound, Playhead.ClearTimer(old(DeckOf(sound))))
    {
      sound.pending := sound.pending - multiset{endTimers[sound.id].deadline};
      endTimers := endTimers - {sound.id};
    }

    method ClearTimer(id: int)
      requires Structure()
      modifies this`endTimers, (set s | s in sounds)`pending
      ensures Structure() && SamePool()
      ensures forall s :: s in sounds && s.id == id ==> DeckOf(s) == Playhead.ClearTimer(old(DeckOf(s)))
      ensures forall s :: s in sounds && s.id != id ==> DeckOf(s) == old(DeckOf(s))
    {
      if id in endTimers {
        DropTimer(endTimers[id].sound);
      }
    }

    /** `_endTimers[sound._id] = setTimeout(_ended bound to sound, timeout)`. */
    method ArmTimer(sound: Sound, timeout: real)
      requires Structure() && sound in sounds
      modifies this`endTimers, sound`pending
      ensures Structure() && Became(sound, Arm(old(DeckOf(sound)), timeout))
    {
      var deadline := howler.now + Max(0.0, timeout);
      endTimers := endTimers[sound.id := Timer(deadline, sound)];
      sound.pending := sound.pending + multiset{deadline};
    }

    /** The looping half of `_ended`. */
    method RestartLoop(sound: Sound)
      requires Structure() && sound in sounds
      modifies this`endTimers, sounds
      ensures Structure() && Became(sound, RestartStep(old(DeckOf(sound))))
    {
      ghost var d := DeckOf(sound);
      sound.Rewind(howler.now);
      assert DeckOf(sound) == d.(voice := sound.State());
      var length := if sound.start.Some? && sound.stop.Some? then sound.stop.value - sound.start.value else 0.0;
      ArmTimer(sound, TimeFor(length, sound.rate));
    }

    method RestSound(sound: Sound)
      requires Structure() && sound in sounds
      modifies sound
      ensures Structure() && Became(sound, RestedStep(old(DeckOf(sound))))
    {
      sound.Rest();
    }

    /** `_ended`: rewind and go round again when looping, otherwise rest. */
    method Ended(sound: Sound)
      requires Structure() && sound in sounds
      modifies this`endTimers, sounds
      ensures Structure() && Became(sound, EndedStep(old(DeckOf(sound)), old(SpriteOf(sound))))
    {
      if sound.loop || sprites[sound.sprite].loop {
        RestartLoop(sound);
      } else {
        RestSound(sound);
        ClearTimer(sound.id);
      }
    }

    // ------------------------------------------------------------ playing

    /** What `seek(id)` answers. */
    method GetSeek(id: int) returns (position: Option<real>)
      requires Structure()
      ensures position.Some? <==> exists s :: s in sounds && s.id == id
      ensures forall s :: s in sounds && s.id == id ==> position == Some(Position(s.State(), howler.now))
    {
      var sound := SoundById(id);
      if sound == null {
        return None;
      }
      var realTime := if sound.paused then 0.0 else howler.now - sound.playStart;
      var rateSeek := if sound.rateSeek != 0.0 then sound.rateSeek - sound.seek else 0.0;
      position := Some(sound.seek + (rateSeek + Travel(realTime, sound.rate)));
      assert position == Some(Position(sound.State(), howler.now));
      assert forall s :: s in sounds && s.id == id ==> s == sound;
    }

    /** `seek(id)` asked for a sound of the pool. */
    method PositionOf(sound: Sound) returns (position: real)
      requires Structure() && sound in sounds
      ensures position == Position(sound.State(), howler.now)
    {
      var answer := GetSeek(sound.id);
      position := answer.value;
    }

    /** `setParams` and the buffer source. */
    method ParamSound(sound: Sound, seek: real)
      requires Structure() && sound in sounds
      modifies sound
      ensures Structure() && Became(sound, ParamStep(old(DeckOf(sound)), old(SpriteOf(sound)), seek))
    {
      var sp := sprites[sound.sprite];
      sound.SetParams(seek, sp.Start(), sp.Stop(), sp.loop, howler.now);
    }

    /** `playWebAudio`: set the parameters, start the buffer source, arm the end timer. */
    method StartSound(sound: Sound, seek: real)
      requires Structure() && sound in sounds
      modifies this`endTimers, sounds
      ensures Structure() && Became(sound, StartStep(old(DeckOf(sound)), old(SpriteOf(sound)), seek))
    {
      var sp := sprites[sound.sprite];
      ParamSound(sound, seek);
      if sound.rate != 0.0 {
        ArmTimer(sound, TimeFor(Max(0.0, sp.Stop() - seek), sound.rate));
      }
    }

    /** The part of `play` after the sound and its sprite are chosen, on a loaded group with the context running. */
    method PlaySound(sound: Sound) returns (started: bool)
      requires Structure() && sound in sounds && sound.paused
      modifies this`endTimers, sounds
      ensures Structure() && Became(sound, PlayStep(old(DeckOf(sound)), old(SpriteOf(sound))))
      ensures started <==> old(PlayFrom(sound.seek, SpriteOf(sound)) < SpriteOf(sound).Stop())
    {
      var sp := sprites[sound.sprite];
      var seek := Max(0.0, if sound.seek > 0.0 then sound.seek else sp.Start());
      started := seek < sp.Stop();
      if started {
        StartSound(sound, seek);
      } else {
        sound.ended := false;
        Ended(sound);
      }
    }

    // ------------------------------------------------------------ pause, stop, seek, rate, loop

    /** The computed position becomes the stored one. */
    method HoldSound(sound: Sound)
      requires Structure() && sound in sounds
      modifies sound
      ensures Structure() && Became(sound, HoldStep(old(DeckOf(sound))))
    {
      if !sound.paused {
        var position := PositionOf(sound);
        sound.Hold(position);
      }
    }

    method PauseSound(sound: Sound)
      requires Structure() && sound in sounds
      modifies this`endTimers, sounds
      ensures Structure() && Became(sound, PauseStep(old(DeckOf(sound))))
    {
      ClearTimer(sound.id);
      HoldSound(sound);
    }

    method StopSound(sound: Sound)
      requires Structure() && sound in sounds
      modifies this`endTimers, sounds
      ensures Structure() && Became(sound, RestStep(old(DeckOf(sound))))
    {
      ClearTimer(sound.id);
      RestSound(sound);
    }

    /** `pause(id)` for one id; an id outside the pool has no timer and no sound. */
    method PauseOne(id: int)
      requires Structure()
      modifies this`endTimers, sounds
      ensures Structure() && Turned({id}, Event.Pause)
    {
      var sound := SoundById(id);
      if sound != null {
        PauseSound(sound);
      }
    }

    method StopOne(id: int)
      requires Structure()
      modifies this`endTimers, sounds
      ensures Structure() && Turned({id}, Event.Stop)
    {
      var sound := SoundById(id);
      if sound != null {
        StopSound(sound);
      }
    }

    method MoveSound(sound: Sound, position: real)
      requires Structure() && sound in sounds
      modifies this`endTimers, sounds
      ensures Structure() && Became(sound, MoveStep(old(DeckOf(sound)), position))
    {
      sound.MoveTo(position);
      ClearTimer(sound.id);
    }

    method SeekSound(sound: Sound, position: real)
      requires Structure() && sound in sounds && position >= 0.0
      modifies this`endTimers, sounds
      ensures Structure() && Became(sound, SeekStep(old(DeckOf(sound)), old(SpriteOf(sound)), position))
    {
      var playing := !sound.paused;
      if playing {
        PauseSound(sound);
      }
      MoveSound(sound, position);
      if playing {
        var started := PlaySound(sound);
      }
    }

    method RebaseSound(sound: Sound)
      requires Structure() && sound in sounds
      modifies sound
      ensures Structure() && Became(sound, RebaseStep(old(DeckOf(sound))))
    {
      if !sound.paused {
        var position := PositionOf(sound);
        sound.Rebase(position, howler.now);
      }
    }

    method TuneSound(sound: Sound, rate: real)
      requires Structure() && sound in sounds
      modifies sound
      ensures Structure() && Became(sound, TuneStep(old(DeckOf(sound)), rate))
    {
      RebaseSound(sound);
      sound.rate := rate;
    }

    /** A fresh end timer in place of the old one. */
    method RearmSound(sound: Sound, timeout: real)
      requires Structure() && sound in sounds
      modifies this`endTimers, sounds
      ensures Structure() && Became(sound, Arm(Playhead.ClearTimer(old(DeckOf(sound))), timeout))
    {
      ClearTimer(sound.id);
      ArmTimer(sound, timeout);
    }

    method TimeLeftOf(sound: Sound) returns (timeout: real)
      requires Structure() && sound in sounds
      ensures timeout == TimeLeft(DeckOf(sound), SpriteOf(sound))
    {
      var position := PositionOf(sound);
      var duration := sprites[sound.sprite].Stop() - position;
      timeout := TimeFor(duration, sound.rate);
    }

    method RetimeSound(sound: Sound)
      requires Structure() && sound in sounds
      modifies this`endTimers, sounds
      ensures Structure() && Became(sound, RetimeStep(old(DeckOf(sound)), old(SpriteOf(sound))))
    {
      var timeout := TimeLeftOf(sound);
      if sound.id in endTimers || !sound.paused {
        RearmSound(sound, timeout);
      }
    }

    method RateSound(sound: Sound, rate: real)
      requires Structure() && sound in sounds
      modifies this`endTimers, sounds
      ensures Structure() && Became(sound, RateStep(old(DeckOf(sound)), old(SpriteOf(sound)), rate))
    {
      TuneSound(sound, rate);
      RetimeSound(sound);
    }

    method FlagSound(sound: Sound, on: bool)
      requires Structure() && sound in sounds
      modifies sound
      ensures Structure() && Became(sound, old(DeckOf(sound)).(voice := old(DeckOf(sound)).voice.(loop := on)))
    {
      sound.loop := on;
    }

    method LoopSound(sound: Sound, on: bool)
      requires Structure() && sound in sounds
      modifies this`endTimers, sounds
      ensures Structure() && Became(sound, LoopStep(old(DeckOf(sound)), old(SpriteOf(sound)), on))
    {
      FlagSound(sound, on);
      if sound.bufferSource && on && !sound.paused {
        PauseSound(sound);
        var started := PlaySound(sound);
      }
    }

    /** The browser runs a due timeout: the callback leaves its list, `_ended` runs on the Sound it is bound to. */
    method FireTimeout(sound: Sound, deadline: real)
      requires Structure() && sound in sounds && deadline in sound.pending && deadline <= howler.now
      modifies this`endTimers, sounds
      ensures Structure() && Became(sound, TimeoutStep(old(DeckOf(sound)), old(SpriteOf(sound)), deadline))
    {
      ghost var d := DeckOf(sound);
      sound.pending := sound.pending - multiset{deadline};
      assert DeckOf(sound) == d.(pending := d.pending - multiset{deadline});
      Ended(sound);
    }

    method RateOne(id: int, rate: real)
      requires Structure()
      modifies this`endTimers, sounds
      ensures Structure() && Turned({id}, Event.SetRate(rate))
    {
      var sound := SoundById(id);
      if sound != null {
        RateSound(sound, rate);
      }
    }

    method SeekOne(position: real, id: int)
      requires Structure() && position >= 0.0
      modifies this`endTimers, sounds
      ensures Structure() && Turned({id}, Event.SeekTo(position))
    {
      var sound := SoundById(id);
      if sound != null {
        SeekSound(sound, position);
      }
    }

    method LoopOne(id: int, on: bool)
      requires Structure()
      modifies this`endTimers, sounds
      ensures Structure() && Turned({id}, Event.SetLoop(on))
    {
      var sound := SoundById(id);
      if sound != null {
        LoopSound(sound, on);
      }
    }

    // ------------------------------------------------------------ the pool

    /** The first ended sound of a pool. */
    static ghost predicate FirstEnded(xs: seq<Sound>, ended: set<Sound>, sound: Sound)
    {
      exists i :: 0 <= i < |xs| && xs[i] == sound && sound in ended && forall j :: 0 <= j < i ==> xs[j] !in ended
    }

    /** After is the drained pool, and this sound is its first ended one, or is added because it has none. */
    static ghost predicate HandedOut(before: seq<Sound>, ended: set<Sound>, pool: nat, after: seq<Sound>, sound: Sound)
    {
      var kept := Draining.Drained(before, ended, pool);
      if exists s :: s in kept && s in ended
      then after == kept && FirstEnded(kept, ended, sound)
      else after == kept + [sound] && sound !in before
    }

    static lemma HandedOutFrom(before: seq<Sound>, ended: set<Sound>, pool: nat, kept: seq<Sound>, inactive: set<Sound>,
                               after: seq<Sound>, sound: Sound)
      requires kept == Draining.Drained(before, ended, pool)
      requires forall s :: s in inactive <==> s in kept && s in ended
      requires if inactive != {} then after == kept && FirstEnded(kept, inactive, sound)
               else after == kept + [sound] && sound !in before
      ensures HandedOut(before, ended, pool, after, sound)
    {
    }

    /** With a sound to give away, and room for one, the pool has not grown; one within its limit is the same. */
    twostate predicate RoomKept()
      reads `sounds, `pool
    {
      old(EndedSounds()) != {} ==>
        && (pool >= 1 ==> |sounds| <= |old(sounds)|)
        && (|old(sounds)| <= pool ==> sounds == old(sounds))
    }

    /** With a sound to give away, and room for one, the pool does not grow. */
    static lemma RoomEnough(before: seq<Sound>, ended: set<Sound>, pool: nat, after: seq<Sound>, sound: Sound)
      requires HandedOut(before, ended, pool, after, sound)
      ensures pool >= 1 && (exists e :: e in ended && e in before) ==> |after| <= |before|
      ensures |before| <= pool && (exists e :: e in ended && e in before) ==> after == before
    {
      if exists e :: e in ended && e in before {
        var e :| e in ended && e in before;
        if |before| <= pool {
          Draining.SmallPool(before, ended, pool);
        }
        if pool >= 1 {
          Draining.DrainedRoom(before, ended, pool, e);
        }
      }
    }

    ghost function EndedSounds(): set<Sound>
      reads this`sounds, sounds
    {
      set s | s in sounds && s.ended
    }

    method CountEnded() returns (cnt: nat)
      ensures cnt == Draining.Count(sounds, EndedSounds())
    {
      cnt := 0;
      for i := 0 to |sounds|
        invariant cnt == Draining.Count(sounds[..i], EndedSounds())
      {
        assert sounds[..i + 1][..i] == sounds[..i];
        if sounds[i].ended {
          cnt := cnt + 1;
        }
      }
      assert sounds[..|sounds|] == sounds;
    }

    /** The second loop of `_drain`. */
    method RemoveFromBack(count: nat)
      requires count == Draining.Count(sounds, EndedSounds())
      modifies this`sounds
      ensures sounds == Draining.Drained(old(sounds), old(EndedSounds()), pool)
    {
      ghost var xs, ended := sounds, EndedSounds();
      ghost var goal := Draining.Drained(xs, ended, pool);
      ghost var tail: seq<Sound> := [];
      var cnt: nat, i: nat := count, |sounds|;
      assert xs[..i] == xs && goal + [] == goal;
      while i > 0 && cnt > pool
        invariant 0 <= i <= |xs| && sounds == xs[..i] + tail
        invariant cnt > pool ==> cnt == Draining.Count(xs[..i], ended)
        invariant goal == Draining.Walked(xs, ended, i, cnt, pool) + tail
      {
        i := i - 1;
        Draining.WalkStep(xs, ended, i, cnt, pool, tail);
        assert sounds == xs[..i] + ([xs[i]] + tail);
        if sounds[i].ended {
          sounds := sounds[..i] + sounds[i + 1..];
          cnt := cnt - 1;
        } else {
          tail := [xs[i]] + tail;
        }
      }
    }

    /** An ended sound is paused and has no timer. */
    lemma EndedSilent(s: Sound)
      requires s.sprite in sprites && SoundOk(s) && s.ended
      ensures s.paused && s.pending == multiset{} && s.id !in endTimers
    {
      var d := DeckOf(s);
      assert d.voice.ended && d.voice.paused && d.entry == None;
    }

    /** Dropping ended sounds leaves a valid group: an ended sound is paused and has no timer. */
    twostate lemma SmallerPool(kept: seq<Sound>)
      requires old(Valid()) && sounds == kept && unchanged(howler) && unchanged(old(sounds))
      requires endTimers == old(endTimers) && sprites == old(sprites) && spritesDefined == old(spritesDefined)
      requires loaded == old(loaded) && rate == old(rate)
      requires forall i, j :: 0 <= i < j < |kept| ==> kept[i] != kept[j]
      requires forall s :: s in kept ==> s in old(sounds)
      requires forall s :: s in old(sounds) && s !in kept ==> old(s.ended)
      ensures Valid()
      ensures forall s :: s in old(sounds) && s !in kept ==> s.paused && s.pending == multiset{}
    {
      forall s | s in old(sounds)
        ensures DeckOf(s) == old(DeckOf(s)) && old(SoundOk(s)) && (s in kept ==> SoundOk(s))
      {
        assert old(SoundOk(s));
      }
      forall s | s in old(sounds) && s !in kept
        ensures s.paused && s.pending == multiset{} && s.id !in endTimers
      {
        EndedSilent(s);
      }
    }

    /** `_drain`: with at least `pool` sounds, drop ended ones from the back until at most `pool` of them are left. */
    method Drain()
      requires Valid()
      modifies this`sounds
      ensures Valid()
      ensures sounds == Draining.Drained(old(sounds), old(EndedSounds()), pool)
      ensures forall i :: 0 <= i < |sounds| ==> sounds[i] in old(sounds)
      ensures forall s :: s in EndedSounds() <==> s in sounds && s in old(EndedSounds())
      ensures Draining.Count(sounds, EndedSounds()) <= pool
      ensures forall s :: s in old(sounds) && s !in sounds ==> s.ended && s.paused && s.pending == multiset{}
    {
      ghost var xs, ended := sounds, EndedSounds();
      if |sounds| < pool {
        Draining.SmallPool(xs, ended, pool);
      } else {
        var cnt := CountEnded();
        RemoveFromBack(cnt);
      }
      Draining.DrainedMembers(xs, ended, pool);
      SmallerPool(sounds);
      Draining.DrainedCount(xs, ended, pool, EndedSounds());
    }

    /** The voice of a sound taken from the pool: reset keeps the last start and stop, a new sound has none. */
    function FreshVoice(start: Option<real>, stop: Option<real>, playStart: real): Voice
      reads `loop, `rate
    {
      Voice(0.0, 0.0, true, true, start, stop, loop, rate, playStart, false)
    }

    /** Giving an ended sound a new id and first values leaves a valid group. */
    twostate lemma RecycledPool(sound: Sound)
      requires old(Valid()) && sound in sounds && old(sound.ended)
      requires unchanged(this) && forall s :: s in sounds && s != sound ==> unchanged(s)
      requires howler.Counting() && howler.now == old(howler.now)
      requires sound.id !in old(howler.issued) && howler.issued == old(howler.issued) + {sound.id}
      requires sound.sprite == DEFAULT && sound.pending == old(sound.pending)
      requires sound.State() == FreshVoice(old(sound.start), old(sound.stop), old(sound.playStart))
      ensures Valid()
      ensures DeckOf(sound) == Deck(sound.State(), howler.now, None, multiset{})
    {
      assert old(SoundOk(sound));
      forall k | k in endTimers
        ensures k in old(howler.issued)
      {
        assert old(endTimers[k].sound) in old(sounds) && old(endTimers[k].sound.id) == k;
      }
      forall k | k in endTimers
        ensures endTimers[k].sound != sound
      {
        assert old(SoundOk(endTimers[k].sound));
      }
      forall s | s in sounds && s != sound
        ensures DeckOf(s) == old(DeckOf(s)) && SoundOk(s)
      {
      }
    }

    /** A new sound at the back of the pool leaves a valid group. */
    twostate lemma GrownPool(new sound: Sound)
      requires old(Valid()) && sounds == old(sounds) + [sound] && !old(allocated(sound)) && unchanged(old(sounds))
      requires endTimers == old(endTimers) && sprites == old(sprites) && spritesDefined == old(spritesDefined)
      requires loaded == old(loaded) && rate == old(rate)
      requires howler.Counting() && howler.now == old(howler.now)
      requires sound.parent == this && sound.id !in old(howler.issued) && howler.issued == old(howler.issued) + {sound.id}
      requires sound.sprite == DEFAULT && sound.pending == multiset{}
      requires sound.State() == FreshVoice(None, None, 0.0)
      ensures Valid()
      ensures DeckOf(sound) == Deck(sound.State(), howler.now, None, multiset{})
    {
      forall k | k in endTimers
        ensures k in old(howler.issued)
      {
        assert old(endTimers[k].sound) in old(sounds) && old(endTimers[k].sound.id) == k;
      }
      forall s | s in old(sounds)
        ensures s != sound && s.id != sound.id && s.id == old(s.id) && s.sprite == old(s.sprite)
        ensures DeckOf(s) == old(DeckOf(s)) && SoundOk(s)
      {
        assert old(SoundOk(s));
      }
      forall s | s in sounds
        ensures s in old(sounds) || s == sound
      {
      }
    }

    /** `new Sound(self)`. */
    method NewSound() returns (sound: Sound)
      requires Valid()
      modifies this`sounds, howler`counter, howler`issued
      ensures Valid() && fresh(sound) && sounds == old(sounds) + [sound]
      ensures sound.id == howler.counter == old(howler.counter) + 1
      ensures sound.id !in old(howler.issued) && howler.issued == old(howler.issued) + {sound.id}
      ensures sound.sprite == DEFAULT
      ensures DeckOf(sound) == Deck(FreshVoice(None, None, 0.0), howler.now, None, multiset{})
    {
      var id := howler.NextId();
      sound := new Sound(this, id);
      sounds := sounds + [sound];
      GrownPool(sound);
    }

    /** The end of `_inactiveSound` for a recycled sound. */
    method Recycle(sound: Sound)
      requires Valid() && sound in sounds && sound.ended
      modifies sound, howler`counter, howler`issued
      ensures Valid() && sound.ended
      ensures sound.id == howler.counter == old(howler.counter) + 1
      ensures sound.id !in old(howler.issued) && howler.issued == old(howler.issued) + {sound.id}
      ensures sound.sprite == DEFAULT
      ensures DeckOf(sound) == Deck(FreshVoice(sound.start, sound.stop, sound.playStart), howler.now, None, multiset{})
    {
      assert SoundOk(sound);
      sound.Reset();
      RecycledPool(sound);
    }

    /** The end of `_inactiveSound`: the sound found is recycled, without one a new sound is made. */
    method TakeSound(candidate: Sound?) returns (sound: Sound)
      requires Valid()
      requires if candidate != null then candidate in sounds && candidate.ended else EndedSounds() == {}
      modifies `sounds, howler`counter, howler`issued, if candidate != null then {candidate} else {}
      ensures Valid() && sound in sounds
      ensures sound.id == howler.counter == old(howler.counter) + 1
      ensures sound.id !in old(howler.issued) && howler.issued == old(howler.issued) + {sound.id}
      ensures sound.sprite == DEFAULT
      ensures DeckOf(sound) == Deck(FreshVoice(sound.start, sound.stop, sound.playStart), howler.now, None, multiset{})
      ensures candidate != null ==> sound == candidate && sounds == old(sounds) && EndedSounds() == old(EndedSounds())
      ensures candidate == null ==> fresh(sound) && sounds == old(sounds) + [sound] && EndedSounds() == {sound}
    {
      if candidate != null {
        ghost var ended := EndedSounds();
        sound := candidate;
        Recycle(sound);
        assert EndedSounds() == ended;
      } else {
        sound := NewSound();
        assert sound.State().ended && EndedSounds() == {sound};
      }
    }

    /** The loop of `_inactiveSound`: the first ended sound, if there is one. */
    method FindEnded() returns (candidate: Sound?)
      ensures if candidate != null then FirstEnded(sounds, EndedSounds(), candidate) else EndedSounds() == {}
      ensures if candidate == null then forall s :: s in sounds ==> !s.ended
              else exists i :: 0 <= i < |sounds| && sounds[i] == candidate && candidate.ended
                               && forall j :: 0 <= j < i ==> !sounds[j].ended
    {
      for i := 0 to |sounds|
        invariant forall j :: 0 <= j < i ==> !sounds[j].ended
      {
        if sounds[i].ended {
          return sounds[i];
        }
      }
      return null;
    }

    /** `_inactiveSound` on a pool already drained. */
    method TakeFirst() returns (sound: Sound)
      requires Valid()
      modifies `sounds, howler`counter, howler`issued, sounds
      ensures Valid() && sound in sounds
      ensures sound.id == howler.counter == old(howler.counter) + 1
      ensures sound.id !in old(howler.issued) && howler.issued == old(howler.issued) + {sound.id}
      ensures sound.sprite == DEFAULT
      ensures DeckOf(sound) == Deck(FreshVoice(sound.start, sound.stop, sound.playStart), howler.now, None, multiset{})
      ensures forall s :: s in old(sounds) && s != sound ==> unchanged(s)
      ensures old(EndedSounds()) != {} ==>
                sounds == old(sounds) && EndedSounds() == old(EndedSounds()) && FirstEnded(sounds, EndedSounds(), sound)
      ensures old(EndedSounds()) == {} ==> fresh(sound) && sounds == old(sounds) + [sound] && EndedSounds() == {sound}
    {
      var candidate := FindEnded();
      sound := TakeSound(candidate);
    }

    /** `_inactiveSound`: drain, then take a sound: the first ended one that is left, or a new one when none is. */
    method InactiveSound() returns (sound: Sound)
      requires Valid()
      modifies this`sounds, sounds, howler`counter, howler`issued
      ensures Valid() && sound in sounds
      ensures sound.id == howler.counter == old(howler.counter) + 1
      ensures sound.id !in old(howler.issued) && howler.issued == old(howler.issued) + {sound.id}
      ensures sound.sprite == DEFAULT
      ensures DeckOf(sound) == Deck(FreshVoice(sound.start, sound.stop, sound.playStart), howler.now, None, multiset{})
      ensures forall s :: s in old(sounds) && s != sound ==> unchanged(s)
      ensures HandedOut(old(sounds), old(EndedSounds()), pool, sounds, sound)
      ensures sound !in old(sounds) ==> fresh(sound)
      ensures forall i :: 0 <= i < |sounds| ==> sounds[i] in old(sounds) || sounds[i] == sound
      ensures pool >= 1 ==> Draining.Count(sounds, EndedSounds()) <= pool
      ensures forall s :: s in old(sounds) && s !in sounds ==> s.ended && s.paused && s.pending == multiset{}
    {
      ghost var xs, ended := sounds, EndedSounds();
      Drain();
      ghost var kept, inactive := sounds, EndedSounds();
      sound := TakeFirst();
      if inactive == {} {
        Draining.OneMore(kept, sound, EndedSounds());
      }
      HandedOutFrom(xs, ended, pool, kept, inactive, sounds, sound);
    }

    // ------------------------------------------------------------ validity of the public operations

    /** No listed sound is looping and about to be started at or past its sprite's end. */
    predicate Safe(ids: set<int>, e: Event)
      requires Structure()
      reads `sounds, `endTimers, `sprites, `rate, howler, sounds
    {
      forall s :: s in sounds && s.id in ids ==> !LoopsPastEnd(DeckOf(s), SpriteOf(s), e)
    }

    /** A valid group stays valid under a step of some of its sounds if and only if the step is safe for them. */
    twostate lemma TurnedValid(call: Call)
      requires old(Valid()) && Structure() && Turned(call.ids, call.event)
      requires old(spritesDefined) || call.event.SetLoop?
      requires forall s :: s in sounds && s.id in call.ids ==> Enabled(old(DeckOf(s)), call.event)
      ensures Valid() <==> old(Safe(call.ids, call.event))
    {
      forall s | s in sounds
        ensures SpriteOf(s) == old(SpriteOf(s)) && old(SoundOk(s))
        ensures SoundOk(s) <==>
                (s.id in call.ids ==> !LoopsPastEnd(old(DeckOf(s)), old(SpriteOf(s)), call.event))
      {
        assert old(SoundOk(s)) && DeckOf(s).voice.paused == s.paused && old(DeckOf(s)).voice.paused == old(s.paused);
        if s.id in call.ids {
          TimerKept(old(DeckOf(s)), old(SpriteOf(s)), call.event);
        }
      }
    }

    /** Pausing, stopping and changing the rate are safe for any sound. */
    lemma HarmlessIsSafe(ids: set<int>, e: Event)
      requires Structure() && (e.Pause? || e.Stop? || e.SetRate?)
      ensures Safe(ids, e)
    {
    }

    function PoolIds(): set<int>
      reads this`sounds, sounds
    {
      set s | s in sounds :: s.id
    }

    /** The ids a call addresses: the one given, or all in the pool. */
    function Addressed(id: Option<int>): set<int>
      reads this`sounds, sounds
    {
      if id.Some? then {id.value} else PoolIds()
    }

    /** `_getSoundIds`. */
    method GetSoundIds(id: Option<int>) returns (ids: seq<int>)
      requires Structure()
      ensures forall k :: k in Addressed(id) <==> k in ids
      ensures forall s :: s in sounds ==> (s.id in Addressed(id) <==> id == None || id == Some(s.id))
      ensures forall i, j :: 0 <= i < j < |ids| ==> ids[i] != ids[j]
    {
      if id.Some? {
        return [id.value];
      }
      ids := [];
      for i := 0 to |sounds|
        invariant |ids| == i && forall j :: 0 <= j < i ==> ids[j] == sounds[j].id
      {
        ids := ids + [sounds[i].id];
      }
      forall k
        ensures k in ids <==> k in PoolIds()
      {
        if k in PoolIds() {
          var s :| s in sounds && s.id == k;
          var i :| 0 <= i < |sounds| && sounds[i] == s;
          assert ids[i] == k;
        }
      }
    }

    /** A loop over ids that has dealt with each has dealt with exactly the ids wanted. */
    static lemma AllDone(ids: seq<int>, done: set<int>, wanted: set<int>)
      requires forall k :: k in wanted <==> k in ids
      requires forall j :: 0 <= j < |ids| ==> ids[j] in done
      requires forall k :: k in done ==> k in ids
      ensures done == wanted
    {
      forall k
        ensures k in done <==> k in wanted
      {
        if k in wanted {
          var j :| 0 <= j < |ids| && ids[j] == k;
        }
      }
    }

    /** The loop of `pause` over the ids it addresses. */
    method PauseEach(ids: seq<int>, ghost wanted: set<int>)
      requires Structure()
      requires forall i, j :: 0 <= i < j < |ids| ==> ids[i] != ids[j]
      requires forall k :: k in wanted <==> k in ids
      modifies this`endTimers, sounds
      ensures Structure() && Turned(wanted, Event.Pause)
    {
      ghost var done: set<int> := {};
      for i := 0 to |ids|
        invariant Structure() && Turned(done, Event.Pause)
        invariant forall j :: 0 <= j < |ids| ==> (ids[j] in done <==> j < i)
        invariant forall k :: k in done ==> k in ids
      {
        PauseOne(ids[i]);
        done := done + {ids[i]};
      }
      AllDone(ids, done, wanted);
    }

    /** The loop of `stop` over the ids it addresses. */
    method StopEach(ids: seq<int>, ghost wanted: set<int>)
      requires Structure()
      requires forall i, j :: 0 <= i < j < |ids| ==> ids[i] != ids[j]
      requires forall k :: k in wanted <==> k in ids
      modifies this`endTimers, sounds
      ensures Structure() && Turned(wanted, Event.Stop)
    {
      ghost var done: set<int> := {};
      for i := 0 to |ids|
        invariant Structure() && Turned(done, Event.Stop)
        invariant forall j :: 0 <= j < |ids| ==> (ids[j] in done <==> j < i)
        invariant forall k :: k in done ==> k in ids
      {
        StopOne(ids[i]);
        done := done + {ids[i]};
      }
      AllDone(ids, done, wanted);
    }

    /** The loop of `rate` over the ids it addresses. */
    method RateEach(ids: seq<int>, ghost wanted: set<int>, rate: real)
      requires Structure()
      requires forall i, j :: 0 <= i < j < |ids| ==> ids[i] != ids[j]
      requires forall k :: k in wanted <==> k in ids
      modifies this`endTimers, sounds
      ensures Structure() && Turned(wanted, Event.SetRate(rate))
    {
      ghost var done: set<int> := {};
      for i := 0 to |ids|
        invariant Structure() && Turned(done, Event.SetRate(rate))
        invariant forall j :: 0 <= j < |ids| ==> (ids[j] in done <==> j < i)
        invariant forall k :: k in done ==> k in ids
      {
        RateOne(ids[i], rate);
        done := done + {ids[i]};
      }
      AllDone(ids, done, wanted);
    }

    /** `loop` on the ids it addresses, and on the group itself if they are all of its sounds. */
    method LoopEach(ids: seq<int>, ghost wanted: set<int>, on: bool, whole: bool)
      requires Structure()
      requires forall i, j :: 0 <= i < j < |ids| ==> ids[i] != ids[j]
      requires forall k :: k in wanted <==> k in ids
      modifies this`endTimers, this`loop, sounds
      ensures Structure() && Turned(wanted, Event.SetLoop(on))
      ensures loop == if whole then on else old(loop)
    {
      if whole {
        loop := on;
      }
      ghost var done: set<int> := {};
      for i := 0 to |ids|
        invariant Structure() && Turned(done, Event.SetLoop(on))
        invariant loop == if whole then on else old(loop)
        invariant forall j :: 0 <= j < |ids| ==> (ids[j] in done <==> j < i)
        invariant forall k :: k in done ==> k in ids
      {
        LoopOne(ids[i], on);
        done := done + {ids[i]};
      }
      AllDone(ids, done, wanted);
    }

    method Pause(id: Option<int>)
      requires Valid() && loaded
      modifies this`endTimers, sounds
      ensures Valid() && Turned(old(Addressed(id)), Event.Pause)
    {
      ghost var addressed := Addressed(id);
      HarmlessIsSafe(addressed, Event.Pause);
      var ids := GetSoundIds(id);
      PauseEach(ids, addressed);
      TurnedValid(Call(addressed, Event.Pause));
    }

    method Stop(id: Option<int>)
      requires Valid() && loaded
      modifies this`endTimers, sounds
      ensures Valid() && Turned(old(Addressed(id)), Event.Stop)
      ensures forall s :: s in sounds && s.id in old(Addressed(id)) ==>
                AtRest(s) && s in EndedSounds() && s.seek == old(s.start.GetOr(0.0))
    {
      ghost var addressed := Addressed(id);
      HarmlessIsSafe(addressed, Event.Stop);
      var ids := GetSoundIds(id);
      StopEach(ids, addressed);
      TurnedValid(Call(addressed, Event.Stop));
      StopRests(addressed);
    }

    /** Ended, so that the pool may give it away, paused, and without a timer. */
    predicate AtRest(s: Sound)
      reads `endTimers, s
    {
      s.ended && s.paused && s.id !in endTimers && s.pending == multiset{}
    }

    twostate lemma StopRests(ids: set<int>)
      requires old(Structure()) && Valid() && Turned(ids, Event.Stop)
      ensures forall s :: s in sounds && s.id in ids ==> AtRest(s) && s.seek == old(s.start.GetOr(0.0))
    {
      forall s | s in sounds && s.id in ids
        ensures AtRest(s) && s.seek == old(s.start.GetOr(0.0))
      {
        assert SoundOk(s) && DeckOf(s).voice == RestStep(old(DeckOf(s))).voice;
        assert DeckOf(s).voice.ended == s.ended && DeckOf(s).voice.seek == s.seek;
        EndedSilent(s);
      }
    }

    /** `rate(r, id)` on the sounds it addresses. */
    method RateAddressed(rate: real, id: Option<int>)
      requires Valid() && loaded && rate != 0.0
      modifies this`endTimers, sounds
      ensures Valid() && Turned(old(Addressed(id)), Event.SetRate(rate))
    {
      ghost var addressed := Addressed(id);
      HarmlessIsSafe(addressed, Event.SetRate(rate));
      var ids := GetSoundIds(id);
      RateEach(ids, addressed, rate);
      TurnedValid(Call(addressed, Event.SetRate(rate)));
    }

    /** `rate(r, id)`; without an id it also becomes the group's rate. */
    method Rate(rate: real, id: Option<int>)
      requires Valid() && loaded && rate != 0.0
      modifies this`endTimers, this`rate, sounds
      ensures Valid() && Turned(old(Addressed(id)), Event.SetRate(rate))
      ensures this.rate == if id == None then rate else old(this.rate)
    {
      if id == None {
        this.rate := rate;
      }
      RateAddressed(rate, id);
    }

    /** `loop(on, id)`; without an id it also becomes the group's setting. It does not wait for loading. */
    method Loop(on: bool, id: Option<int>)
      requires Valid() && (loaded || forall s :: s in sounds ==> s.paused)
      modifies this`endTimers, this`loop, sounds
      ensures Structure() && Turned(old(Addressed(id)), Event.SetLoop(on))
      ensures loop == if id == None then on else old(loop)
      ensures Valid() <==> old(Safe(Addressed(id), Event.SetLoop(on)))
    {
      ghost var addressed := Addressed(id);
      var ids := GetSoundIds(id);
      LoopEach(ids, addressed, on, id == None);
      TurnedValid(Call(addressed, Event.SetLoop(on)));
    }

    /** `seek(x, id)`; a negative x only reads the position. */
    method Seek(position: real, id: int)
      requires Valid() && loaded
      modifies this`endTimers, sounds
      ensures Structure() && SamePool()
      ensures position < 0.0 ==> Valid() && unchanged(this) && unchanged(sounds)
      ensures position >= 0.0 ==> Turned({id}, Event.SeekTo(position))
      ensures position >= 0.0 ==> (Valid() <==> old(Safe({id}, Event.SeekTo(position))))
    {
      if position >= 0.0 {
        SeekOne(position, id);
        TurnedValid(Call({id}, Event.SeekTo(position)));
      }
    }

    // ------------------------------------------------------------ play

    /** The only paused sound of the pool that has not ended. */
    predicate OnlyIdle(s: Sound)
      reads `sounds, sounds
    {
      s in sounds && s.paused && !s.ended && forall t :: t in sounds && t.paused && !t.ended ==> t == s
    }

    /** The id of the sound a call of `play` resumes, if it resumes one: the one named, or the only idle one. */
    function Resumed(arg: PlayArg): set<int>
      reads `sounds, sounds
    {
      match arg
      case ById(id) => {id}
      case BySprite(_) => {}
      case Default => set s | s in sounds && OnlyIdle(s) :: s.id
    }

    predicate IsPlaying(id: int)
      reads `sounds, sounds
    {
      exists s :: s in sounds && s.id == id && !s.paused
    }

    /** `playing(id)`. */
    method Playing(id: int) returns (playing: bool)
      requires Structure()
      ensures playing == IsPlaying(id)
    {
      var sound := SoundById(id);
      playing := sound != null && !sound.paused;
    }

    /** What `play(id)` answers, and whether it leaves a callback that will emit 'play'. */
    twostate predicate PlayAnswer(id: int, new r: Option<int>)
      reads `sounds, `playCallbacks, sounds
    {
      && (r == None || r == Some(id))
      && ((forall s :: s in sounds ==> s.id != id) ==> r == None && playCallbacks == old(playCallbacks))
      && (forall s :: s in sounds && s in old(sounds) && s.id == id ==>
            && (r.Some? <==> !s.paused)
            && playCallbacks == old(playCallbacks) + (if old(s.paused) && !s.paused then 1 else 0))
    }

    method BeginOne(id: int) returns (sound: Sound?, began: bool)
      requires Structure()
      modifies this`endTimers, sounds
      ensures Structure() && Turned({id}, Event.Play)
      ensures sound != null ==> sound in sounds && sound.id == id
      ensures sound == null ==> forall s :: s in sounds ==> s.id != id
      ensures forall s :: s in sounds && s.id == id ==> s == sound
      ensures began <==> sound != null && old(sound.paused) && !sound.paused
    {
      sound := SoundById(id);
      began := false;
      if sound != null && sound.paused {
        began := PlaySound(sound);
        assert sound.State().paused == !began;
      }
    }

    method PlayOne(id: int) returns (r: Option<int>)
      requires Structure()
      modifies this`endTimers, sounds, this`playCallbacks
      ensures Structure() && Turned({id}, Event.Play) && PlayAnswer(id, r)
    {
      var sound, began := BeginOne(id);
      if began {
        playCallbacks := playCallbacks + 1;
      }
      r := if sound != null && !sound.paused then Some(id) else None;
    }

    /** No sound loops and none will: the regime of a client that only plays whole files. */
    predicate NoLoops()
      reads `loop, `sprites, `sounds, sounds
    {
      && !loop && (forall n :: n in sprites ==> !sprites[n].loop)
      && (forall s :: s in sounds ==> !s.loop)
    }

    /** Only `loop` makes a sound loop. */
    twostate lemma TurnedNoLoops(call: Call)
      requires old(Structure()) && Structure() && Turned(call.ids, call.event) && loop == old(loop)
      requires call.event.Play? || call.event.Pause? || call.event.Timeout?
      ensures old(NoLoops()) ==> NoLoops()
    {
      if old(NoLoops()) {
        forall s | s in sounds
          ensures !s.loop
        {
          assert !old(DeckOf(s)).voice.loop && !old(SpriteOf(s)).loop;
          assert DeckOf(s).voice.loop == s.loop;
        }
      }
    }

    /** A sound drawn from the pool takes its loop setting from the group. */
    twostate lemma NoLoopsKept(new sound: Sound)
      requires old(Structure()) && Structure() && sprites == old(sprites) && loop == old(loop)
      requires forall i :: 0 <= i < |sounds| ==> sounds[i] in old(sounds) || sounds[i] == sound
      requires forall s :: s in old(sounds) && s != sound ==> unchanged(s)
      requires sound.loop == loop
      ensures old(NoLoops()) ==> NoLoops()
    {
      forall s | s in sounds && s != sound
        ensures s in old(sounds)
      {
        var i :| 0 <= i < |sounds| && sounds[i] == s;
      }
    }

    /** `play(id)`: resume this sound, unless it already plays. The answer is its id if it plays afterwards. */
    method PlayId(id: int) returns (r: Option<int>)
      requires Valid() && loaded
      modifies this`endTimers, sounds, this`playCallbacks
      ensures Structure() && Turned({id}, Event.Play) && PlayAnswer(id, r)
      ensures Valid() <==> old(Safe({id}, Event.Play))
      ensures old(NoLoops()) ==> NoLoops()
    {
      r := PlayOne(id);
      TurnedValid(Call({id}, Event.Play));
      TurnedNoLoops(Call({id}, Event.Play));
    }

    /** The deck of a sound just drawn from the pool. */
    ghost function FreshDeck(drawn: Voice): Deck
      reads `loop, `rate, howler`now
    {
      Deck(FreshVoice(drawn.start, drawn.stop, drawn.playStart), howler.now, None, multiset{})
    }

    /** A sound from the pool, given this sprite. */
    method DrawSound(name: string) returns (sound: Sound)
      requires Valid() && name in sprites
      modifies `sounds, sounds, howler`counter, howler`issued
      ensures Valid() && sound in sounds
      ensures sound.id == howler.counter == old(howler.counter) + 1
      ensures sound.id !in old(howler.issued) && howler.issued == old(howler.issued) + {sound.id}
      ensures IdsKept() && sound.sprite == name && DeckOf(sound) == FreshDeck(sound.State())
      ensures forall s :: s in old(sounds) && s != sound ==> unchanged(s)
      ensures HandedOut(old(sounds), old(EndedSounds()), pool, sounds, sound)
      ensures sound !in old(sounds) ==> fresh(sound)
      ensures forall i :: 0 <= i < |sounds| ==> sounds[i] in old(sounds) || sounds[i] == sound
      ensures forall s :: s in old(sounds) && s !in sounds ==> s.ended && s.paused && s.pending == multiset{}
      ensures old(NoLoops()) ==> NoLoops()
    {
      sound := InactiveSound();
      label drawn:
      sound.sprite := name;
      SpriteSet@drawn(sound);
      assert sound.loop == FreshDeck(sound.State()).voice.loop;
      NoLoopsKept(sound);
    }

    /** ... counting the pool. */
    method DrawCounted(name: string) returns (sound: Sound)
      requires Valid() && name in sprites
      modifies `sounds, sounds, howler`counter, howler`issued
      ensures Valid() && sound in sounds && sound.sprite == name
      ensures sound.id == howler.counter == old(howler.counter) + 1
      ensures sound.id !in old(howler.issued) && IdsKept() && RoomKept()
      ensures DeckOf(sound) == FreshDeck(sound.State())
      ensures forall s :: s in old(sounds) && s != sound ==> unchanged(s)
      ensures sound !in old(sounds) ==> fresh(sound)
      ensures forall i :: 0 <= i < |sounds| ==> sounds[i] in old(sounds) || sounds[i] == sound
      ensures old(NoLoops()) ==> NoLoops()
    {
      ghost var before, ended := sounds, EndedSounds();
      sound := DrawSound(name);
      RoomEnough(before, ended, pool, sounds, sound);
      if ended != {} {
        ghost var e :| e in ended;
        assert e in before;
      }
    }

    /** ... and what that leaves alone. */
    method DrawOne(name: string) returns (sound: Sound)
      requires Valid() && name in sprites
      modifies `sounds, sounds, howler`counter, howler`issued
      ensures Valid() && sound in sounds && sound.sprite == name && sound.paused
      ensures sound.id == howler.counter == old(howler.counter) + 1
      ensures sound.id !in old(howler.issued) && IdsKept() && PoolWithin() && OldSoundsSame() && RoomKept()
      ensures DeckOf(sound) == FreshDeck(sound.State())
      ensures old(NoLoops()) ==> NoLoops()
    {
      sound := DrawCounted(name);
      assert sound.paused == DeckOf(sound).voice.paused;
    }


    /** A paused sound without a timer may take any sprite. */
    twostate lemma SpriteSet(sound: Sound)
      requires old(Valid()) && sound in sounds && unchanged(this) && unchanged(howler)
      requires forall s :: s in sounds && s != sound ==> unchanged(s)
      requires sound.id == old(sound.id) && sound.State() == old(sound.State()) && sound.pending == old(sound.pending)
      requires sound.paused && sound.sprite in sprites
      ensures Valid() && DeckOf(sound) == old(DeckOf(sound))
    {
      assert old(SoundOk(sound));
      forall s | s in sounds
        ensures DeckOf(s) == old(DeckOf(s)) && SoundOk(s)
      {
      }
    }

    /** For one sound, a step is safe when the sound is. */
    lemma SafeOne(sound: Sound, e: Event)
      requires Structure() && sound in sounds
      ensures Safe({sound.id}, e) <==> !LoopsPastEnd(DeckOf(sound), SpriteOf(sound), e)
    {
    }

    /** The rest of `play`, for a sound just drawn from the pool. */
    method PlayDrawn(sound: Sound) returns (r: Option<int>)
      requires Valid() && loaded && sound in sounds && sound.paused
      modifies this`endTimers, sounds, this`playCallbacks
      ensures Structure() && SamePool() && DeckOf(sound) == Step(old(DeckOf(sound)), old(SpriteOf(sound)), Event.Play)
      ensures forall s :: s in sounds && s != sound ==> DeckOf(s) == old(DeckOf(s))
      ensures r == if sound.paused then None else Some(sound.id)
      ensures playCallbacks == old(playCallbacks) + if r.Some? then 1 else 0
      ensures Valid() <==> !old(LoopsPastEnd(DeckOf(sound), SpriteOf(sound), Event.Play))
      ensures old(NoLoops()) ==> NoLoops()
    {
      SafeOne(sound, Event.Play);
      r := PlayId(sound.id);
    }

    /** This sound plays its sprite from the top: the stretch it covers and its timer in the sprite's own milliseconds. */
    predicate FromTheTop(s: Sound, sp: Sprite)
      reads `endTimers, `rate, `loop, howler`now, s
    {
      && !s.paused && !s.ended && s.rate == rate && s.loop == (loop || sp.loop)
      && 1000.0 * Position(s.State(), howler.now) == sp.offset
      && s.start.Some? && 1000.0 * s.start.value == sp.offset
      && s.stop.Some? && 1000.0 * s.stop.value == sp.offset + sp.length
      && s.id in endTimers && 1000.0 * (Abs(rate) * (endTimers[s.id].deadline - howler.now)) == sp.length
    }

    /** Every sound that keeps an old id is as it was. */
    twostate predicate OldSoundsSame()
      reads this, howler, sounds
    {
      forall s :: s in sounds && s.id in old(howler.issued) ==> s in old(sounds) && DeckOf(s) == old(DeckOf(s))
    }

    lemma PlayedFresh(sound: Sound, sp: Sprite, d: Deck)
      requires d == FreshDeck(d.voice) && VoiceOk(d.voice, d.now) && sp.Valid() && DeckOf(sound) == PlayStep(d, sp)
      ensures sound.paused <==> sp.length == 0.0
      ensures sp.length > 0.0 ==> FromTheTop(sound, sp)
      ensures LoopsPastEnd(d, sp, Event.Play) <==> (loop || sp.loop) && sp.length == 0.0
    {
      PlayedFromTheTop(d, sp);
      assert DeckOf(sound).voice == sound.State();
    }

    /** `play(name)`, and `play()` without a single idle sound: a sound from the pool starts from the top. */
    method PlayFresh(name: string) returns (sound: Sound, r: Option<int>, ghost d: Deck)
      requires Valid() && loaded && name in sprites
      modifies `endTimers, `playCallbacks, `sounds, sounds, howler`counter, howler`issued
      ensures Structure() && IdsKept() && sound in sounds && sound.id == howler.counter == old(howler.counter) + 1
      ensures sound.id !in old(howler.issued)
      ensures d == FreshDeck(d.voice) && DeckOf(sound) == Step(d, sprites[name], Event.Play) && sound.sprite == name
      ensures r == if sprites[name].length > 0.0 then Some(sound.id) else None
      ensures sprites[name].length > 0.0 ==> FromTheTop(sound, sprites[name])
      ensures playCallbacks == old(playCallbacks) + if r.Some? then 1 else 0
      ensures RoomKept()
      ensures OldSoundsSame()
      ensures (Valid() <==> !LoopsPastEnd(d, sprites[name], Event.Play)) && (Valid() <==> !EmptyLoop(name))
      ensures old(NoLoops()) ==> NoLoops()
      ensures forall i :: 0 <= i < |sounds| ==> sounds[i] in old(sounds) || fresh(sounds[i])
    {
      sound := DrawOne(name);
      d := DeckOf(sound);
      assert SoundOk(sound);
      r := PlayDrawn(sound);
      PlayedFresh(sound, sprites[name], d);
    }

    /** The answer is an id never used before, of a sound that plays. */
    method PlayAfresh(name: string) returns (r: Option<int>)
      requires Valid() && loaded && name in sprites
      modifies `endTimers, `playCallbacks, `sounds, sounds, howler`counter, howler`issued
      ensures Structure() && IdsKept() && OldSoundsSame()
      ensures forall i :: 0 <= i < |sounds| ==> sounds[i] in old(sounds) || fresh(sounds[i])
      ensures r.Some? <==> sprites[name].length > 0.0
      ensures r.Some? ==>
                && r.value !in old(howler.issued)
                && exists s :: s in sounds && s.id == r.value && s.sprite == name && FromTheTop(s, sprites[name])
      ensures playCallbacks == old(playCallbacks) + if r.Some? then 1 else 0
      ensures RoomKept()
      ensures Valid() <==> !EmptyLoop(name)
      ensures old(NoLoops()) ==> NoLoops()
    {
      var sound, answer, d := PlayFresh(name);
      r := answer;
    }

    /** Every sound of the pool was there before or is new. */
    twostate predicate PoolWithin()
      reads `sounds
    {
      forall i :: 0 <= i < |sounds| ==> sounds[i] in old(sounds) || fresh(sounds[i])
    }

    /** Resuming: exactly that sound makes the step. */
    twostate predicate ResumedOutcome(id: int, new r: Option<int>)
      requires old(Structure())
      reads this, howler, sounds
    {
      && Structure() && Turned({id}, Event.Play) && PlayAnswer(id, r)
      && (Valid() <==> old(Safe({id}, Event.Play)))
      && (old(NoLoops()) ==> NoLoops())
    }

    /** Starting afresh: nothing for an unknown sprite, otherwise a sound under an id never used before. */
    twostate predicate FreshOutcome(name: string, new r: Option<int>)
      requires old(Structure())
      reads this, howler, sounds
    {
      && (Valid() <==> !EmptyLoop(name))
      && (old(NoLoops()) ==> NoLoops())
      && (r.Some? <==> name in sprites && sprites[name].length > 0.0)
      && (name !in sprites ==> unchanged(this) && unchanged(sounds))
      && OldSoundsSame() && playCallbacks == old(playCallbacks) + (if r.Some? then 1 else 0)
      && RoomKept()
      && (r.Some? ==>
            && r.value !in old(howler.issued)
            && exists s :: s in sounds && s.id == r.value && s.sprite == name && FromTheTop(s, sprites[name]))
    }

    /** `play` when it resumes a sound. */
    method PlayResumed(id: int) returns (r: Option<int>)
      requires Valid() && loaded
      modifies this`endTimers, sounds, this`playCallbacks
      ensures Structure() && IdsKept() && PoolWithin() && ResumedOutcome(id, r)
    {
      r := PlayId(id);
    }

    /** `play` when it resumes no sound. */
    method PlayNew(name: string) returns (r: Option<int>)
      requires Valid() && loaded
      modifies `endTimers, `playCallbacks, `sounds, sounds, howler`counter, howler`issued
      ensures Structure() && IdsKept() && PoolWithin() && FreshOutcome(name, r)
    {
      if name !in sprites {
        return None;
      }
      r := PlayAfresh(name);
    }

    function SpriteAsked(arg: PlayArg): string {
      if arg.BySprite? then arg.name else DEFAULT
    }

    /** A looping sprite without length: the one sprite a fresh sound cannot be started on. */
    predicate EmptyLoop(name: string)
      reads `sprites, `loop
    {
      name in sprites && (loop || sprites[name].loop) && sprites[name].length == 0.0
    }

    /** Pausing one sound leaves it idle, and the others as they were. */
    twostate lemma PausedIsIdle(id: int)
      requires old(Structure()) && Structure() && Turned({id}, Event.Pause)
      requires forall s :: s in sounds ==> old(SoundOk(s))
      ensures forall s :: s in sounds ==>
                if s.id == id && !old(s.paused) then s.paused && !s.ended
                else s.paused == old(s.paused) && s.ended == old(s.ended)
    {
      forall s | s in sounds
        ensures if s.id == id && !old(s.paused) then s.paused && !s.ended
                else s.paused == old(s.paused) && s.ended == old(s.ended)
      {
        assert old(SoundOk(s)) && DeckOf(s).voice.paused == s.paused && DeckOf(s).voice.ended == s.ended;
        assert old(DeckOf(s)).voice.paused == old(s.paused) && old(DeckOf(s)).voice.ended == old(s.ended);
      }
    }

    /** Pausing a sound makes it the one that `play()` resumes, if no other sound is idle. */
    twostate lemma PausedIsResumed(id: int)
      requires old(Structure()) && Structure() && Turned({id}, Event.Pause)
      requires old(IsPlaying(id)) && forall s :: s in sounds && old(s.paused) ==> old(s.ended)
      requires forall s :: s in sounds ==> old(SoundOk(s))
      ensures Resumed(Default) == {id}
    {
      PausedIsIdle(id);
      var p :| p in old(sounds) && old(p.id) == id && !old(p.paused);
      assert OnlyIdle(p);
    }

    /** A sound at rest is none that `play()` resumes, and neither is one that plays; with two idle ones it resumes none. */
    lemma NotResumed(s: Sound)
      requires Structure() && s in sounds
      ensures s.ended || !s.paused ==> s.id !in Resumed(Default)
      ensures (exists t :: t in sounds && t != s && t.paused && !t.ended) ==> s.id !in Resumed(Default)
    {
    }

    // ------------------------------------------------------------ loading, and plays deferred until then

    /** Marking a paused sound as waiting to play leaves a valid group. */
    twostate lemma ReservedValid(sound: Sound)
      requires old(Valid()) && sound in sounds && unchanged(howler) && sounds == old(sounds)
      requires endTimers == old(endTimers) && sprites == old(sprites) && rate == old(rate)
      requires spritesDefined == old(spritesDefined) && loaded == old(loaded) && loop == old(loop)
      requires forall s :: s in sounds && s != sound ==> unchanged(s)
      requires sound.id == old(sound.id) && sound.sprite == old(sound.sprite) && sound.pending == old(sound.pending)
      requires sound.State() == old(sound.State()).(ended := false)
      ensures Valid() && (old(NoLoops()) ==> NoLoops())
    {
      assert old(SoundOk(sound));
      forall s | s in sounds && s != sound
        ensures DeckOf(s) == old(DeckOf(s)) && SoundOk(s) && s.loop == old(s.loop)
      {
      }
      assert sound.loop == old(sound.loop);
    }

    /** `play` before the group has loaded: mark the sound as waiting and put its play on the queue. */
    method Reserve(sound: Sound)
      requires Valid() && !loaded && sound in sounds
      modifies `queue, sound
      ensures Valid() && (old(NoLoops()) ==> NoLoops()) && PlayingKept()
      ensures queue == old(queue) + [sound.id] && !sound.ended && sound.paused == old(sound.paused)
      ensures sound.seek == old(sound.seek) && sound.sprite == old(sound.sprite)
      ensures forall s :: s in sounds && s != sound ==> DeckOf(s) == old(DeckOf(s))
    {
      assert SoundOk(sound);
      sound.ended := false;
      queue := queue + [sound.id];
      ReservedValid(sound);
    }

    /** A play put off until the group has loaded: its sound is marked as not ended and its id waits on the queue. */
    twostate predicate DeferredOutcome(new resumed: Option<int>, new r: Option<int>)
      requires old(Structure())
      reads this, howler, sounds
    {
      && Valid() && (old(NoLoops()) ==> NoLoops())
      && queue == old(queue) + (if r.Some? then [r.value] else [])
      && (r.Some? ==> exists s :: s in sounds && s.id == r.value && !s.ended)
      && (resumed.Some? ==>
            && sounds == old(sounds) && (forall s :: s in sounds ==> s.id == old(s.id))
            && (r == resumed || (r == None && forall s :: s in sounds ==> s.id != resumed.value)))
      && (resumed.None? ==> r.Some? && r.value !in old(howler.issued))
      && (forall s :: s in sounds && s.id in old(howler.issued) && r != Some(s.id) ==>
            s in old(sounds) && DeckOf(s) == old(DeckOf(s)))
    }

    /** A paused sound at the top of this sprite has this id. */
    predicate ReservedFor(name: string, id: int)
      reads `sounds, sounds
    {
      exists s :: s in sounds && s.id == id && s.sprite == name && s.paused && !s.ended && s.seek == 0.0
    }

    method DeferFresh(name: string) returns (r: Option<int>)
      requires Valid() && !loaded && name in sprites
      modifies `queue, `sounds, sounds, howler`counter, howler`issued
      ensures Structure() && IdsKept() && PoolWithin() && DeferredOutcome(None, r) && ReservedFor(name, r.value)
      ensures RoomKept()
    {
      var sound := DrawOne(name);
      assert sound.seek == DeckOf(sound).voice.seek;
      Reserve(sound);
      r := Some(sound.id);
    }

    method DeferResumed(id: int) returns (r: Option<int>)
      requires Valid() && !loaded
      modifies `queue, sounds
      ensures Structure() && IdsKept() && PoolWithin() && DeferredOutcome(Some(id), r) && PlayingKept()
    {
      var sound := SoundById(id);
      if sound == null {
        return None;
      }
      Reserve(sound);
      r := Some(id);
    }

    /** This call finds its sound already playing while plays are still queued: it only lets the queue step. */
    predicate Steps(id: Option<int>)
      reads `queue, `sounds, sounds
    {
      queue != [] && id.Some? && IsPlaying(id.value)
    }

    method DropHead()
      requires Valid() && queue != [] && QueueSafe(queue)
      modifies `queue
      ensures Valid() && queue == old(queue)[1..] && QueueSafe(queue)
      ensures Skipped(queue) == old(Skipped(queue[1..]))
      ensures forall s :: s in sounds ==> DeckOf(s) == old(DeckOf(s)) && SpriteOf(s) == old(SpriteOf(s))
    {
      queue := queue[1..];
    }

    /** `_loadQueue('play')` of a loaded group with a play at the head of its queue: that play is dropped. */
    method StepQueue()
      requires Valid() && loaded && queue != [] && QueueSafe(queue)
      modifies `endTimers, `playCallbacks, `queue, sounds
      ensures Valid() && Called()
      ensures queue == old(queue)[1..][old(Skipped(queue[1..]))..] && Turned(First(queue), Event.Play)
    {
      DropHead();
      LoadQueue();
    }

    /** ... and what it keeps. */
    method StepEmitted()
      requires Valid() && loaded && queue != [] && QueueSafe(queue)
      modifies `endTimers, `playCallbacks, `queue, sounds
      ensures Valid() && (old(NoLoops()) ==> NoLoops()) && QueueSafe(queue)
      ensures queue == old(queue)[1..][old(Skipped(queue[1..]))..] && Turned(First(queue), Event.Play)
      ensures QueueState() == PlayQueue.Emitted(old(QueueState()))
    {
      SkippedStages(queue[1..]);
      StepQueue();
      TurnedNoLoops(Call(First(queue), Event.Play));
      QueueStaysSafe(queue);
      QueueRan(old(queue)[1..]);
    }

    method PlayStepping()
      requires Valid() && loaded && queue != [] && QueueSafe(queue)
      modifies `endTimers, `playCallbacks, `queue, sounds
      ensures SteppedOutcome() && QueueSafe(queue)
      ensures QueueState() == PlayQueue.Emitted(old(QueueState()))
    {
      StepEmitted();
    }

    /** The head of the queue is dropped and what follows it runs. */
    twostate predicate SteppedOutcome()
      requires old(Structure())
      reads this, howler, sounds
    {
      && old(queue) != [] && Valid() && IdsKept() && PoolWithin() && (old(NoLoops()) ==> NoLoops())
      && queue == old(queue)[1..][old(Skipped(queue[1..]))..] && Turned(First(queue), Event.Play)
    }

    /** The rest of `play` on a loaded group. */
    method PlayLoaded(id: Option<int>, name: string) returns (r: Option<int>)
      requires Valid() && loaded && (Steps(id) ==> QueueSafe(queue))
      modifies `endTimers, `playCallbacks, `queue, `sounds, sounds, howler`counter, howler`issued
      ensures Structure() && IdsKept() && PoolWithin()
      ensures id.Some? && !old(Steps(id)) ==> ResumedOutcome(id.value, r)
      ensures old(Steps(id)) ==> r == id && SteppedOutcome()
      ensures id.None? ==> FreshOutcome(name, r)
      ensures !old(Steps(id)) ==> queue == old(queue)
      ensures old(QueueIssued()) ==> QueueIssued()
    {
      if Steps(id) {
        r := id;
        PlayStepping();
      } else if id.Some? {
        r := PlayResumed(id.value);
      } else {
        r := PlayNew(name);
      }
    }

    /** The rest of `play` before the group has loaded. */
    method PlayDeferred(id: Option<int>, name: string) returns (r: Option<int>)
      requires Valid() && !loaded && (id == None ==> name in sprites)
      modifies `queue, `sounds, sounds, howler`counter, howler`issued
      ensures Structure() && IdsKept() && PoolWithin() && DeferredOutcome(id, r)
      ensures id.None? ==> ReservedFor(name, r.value) && RoomKept()
      ensures old(QueueIssued()) ==> QueueIssued()
    {
      if id.Some? {
        r := DeferResumed(id.value);
      } else {
        r := DeferFresh(name);
      }
    }

    /** The rest of `play`, once it is settled which sound it resumes, if any. */
    method PlayChosen(id: Option<int>, name: string) returns (r: Option<int>)
      requires Valid() && (loaded && Steps(id) ==> QueueSafe(queue))
      requires !loaded && id == None ==> name in sprites
      modifies `endTimers, `playCallbacks, `queue, `sounds, sounds, howler`counter, howler`issued
      ensures Structure() && IdsKept() && PoolWithin()
      ensures loaded && id.Some? && !old(Steps(id)) ==> ResumedOutcome(id.value, r)
      ensures loaded && old(Steps(id)) ==> r == id && SteppedOutcome()
      ensures loaded && id.None? ==> FreshOutcome(name, r)
      ensures loaded && !old(Steps(id)) ==> queue == old(queue)
      ensures !loaded ==> DeferredOutcome(id, r) && (id.None? ==> ReservedFor(name, r.value) && RoomKept())
      ensures old(QueueIssued()) ==> QueueIssued()
    {
      if loaded {
        r := PlayLoaded(id, name);
      } else {
        r := PlayDeferred(id, name);
      }
    }

    /**
     `play`, with the context running. Without an argument it resumes the only idle sound, if there is
     exactly one. Before the group has loaded the play is put off.
     */
    method Play(arg: PlayArg) returns (r: Option<int>, ghost resumed: Option<int>)
      requires Valid() && (loaded && arg.ById? && Steps(Some(arg.id)) ==> QueueSafe(queue))
      requires !loaded && arg.BySprite? ==> arg.name in sprites
      modifies `endTimers, `playCallbacks, `queue, `sounds, sounds, howler`counter, howler`issued
      ensures Structure() && IdsKept() && PoolWithin()
      ensures old(Resumed(arg)) == if resumed.Some? then {resumed.value} else {}
      ensures loaded && resumed.Some? && !old(Steps(resumed)) ==> ResumedOutcome(resumed.value, r)
      ensures loaded && old(Steps(resumed)) ==> r == resumed && SteppedOutcome()
      ensures loaded && resumed.None? ==> FreshOutcome(SpriteAsked(arg), r)
      ensures loaded && !old(Steps(resumed)) ==> queue == old(queue)
      ensures !loaded ==>
                DeferredOutcome(resumed, r) && (resumed.None? ==> ReservedFor(SpriteAsked(arg), r.value) && RoomKept())
      ensures match arg
              case ById(id) => resumed == Some(id)
              case BySprite(name) => resumed == None && if loaded then FreshOutcome(name, r) else ReservedFor(name, r.value)
              case Default =>
                resumed == None ==> if loaded then FreshOutcome(DEFAULT, r) else ReservedFor(DEFAULT, r.value)
      ensures old(QueueIssued()) ==> QueueIssued()
    {
      var id: Option<int> := if arg.ById? then Some(arg.id) else None;
      if arg.Default? {
        var num, last := 0, 0;
        ghost var first, second := 0, 0;
        for i := 0 to |sounds|
          invariant num >= 0 && (num > 0 ==> 0 <= first < i && sounds[first].paused && !sounds[first].ended)
          invariant num == 1 ==> last == sounds[first].id
          invariant num > 1 ==> first < second < i && sounds[second].paused && !sounds[second].ended
          invariant num <= 1 ==> forall j :: 0 <= j < i && sounds[j].paused && !sounds[j].ended ==> num == 1 && j == first
        {
          if sounds[i].paused && !sounds[i].ended {
            num := num + 1;
            last := sounds[i].id;
            if num == 1 {
              first := i;
            } else {
              second := i;
            }
          }
        }
        if num == 1 {
          assert OnlyIdle(sounds[first]);
          id := Some(last);
        } else if num > 1 {
          assert sounds[first] != sounds[second];
        }
      }
      assert Resumed(arg) == if id.Some? then {id.value} else {};
      resumed := id;
      r := PlayChosen(id, SpriteAsked(arg));
    }

    /** A play of a paused, non-looping sound is safe and leaves it non-looping. */
    lemma NoLoopsSafe(ids: set<int>)
      requires Structure() && NoLoops()
      ensures Safe(ids, Event.Play)
    {
    }

    /** How many plays at the head of this queue find their sound playing already. */
    function Skipped(q: seq<int>): (n: nat)
      reads `sounds, sounds
      ensures n <= |q|
    {
      if q == [] || !IsPlaying(q[0]) then 0 else 1 + Skipped(q[1..])
    }

    function First(q: seq<int>): set<int> {
      if q == [] then {} else {q[0]}
    }

    /** No queued play is of a looping sound at or past its end. */
    predicate QueueSafe(q: seq<int>)
      requires Structure()
      reads `sounds, `endTimers, `sprites, `rate, howler, sounds
    {
      forall s :: s in sounds && s.id in q ==> !LoopsPastEnd(DeckOf(s), SpriteOf(s), Event.Play)
    }

    /** What a play would make of each of these sounds, under these sprites. */
    ghost function StagesOf(ss: seq<Sound>, sps: map<string, Sprite>): map<int, PlayQueue.Stage>
      requires forall s :: s in ss ==> s.sprite in sps
      reads `endTimers, howler`now, ss
    {
      if ss == [] then map[]
      else
        var s := ss[|ss| - 1];
        StagesOf(ss[..|ss| - 1], sps)[s.id := PlayQueue.StageOf(DeckOf(s), sps[s.sprite])]
    }

    ghost function Stages(): map<int, PlayQueue.Stage>
      requires Structure()
      reads `sounds, `endTimers, `sprites, `rate, howler, sounds
    {
      StagesOf(sounds, sprites)
    }

    /** All that the queue's next steps depend on. */
    ghost function QueueState(): PlayQueue.State
      requires Structure()
      reads `sounds, `endTimers, `sprites, `rate, `queue, `playCallbacks, howler, sounds
    {
      PlayQueue.State(Stages(), queue, playCallbacks)
    }

    lemma {:induction false} PlayingStage(ss: seq<Sound>, id: int)
      requires forall s :: s in ss ==> s.sprite in sprites
      requires forall s, t :: s in ss && t in ss && s.id == t.id ==> s == t
      ensures PlayQueue.Plays(StagesOf(ss, sprites), id) <==> exists s :: s in ss && s.id == id && !s.paused
      decreases |ss|
    {
      if ss != [] {
        var rest, last := ss[..|ss| - 1], ss[|ss| - 1];
        assert ss == rest + [last];
        PlayingStage(rest, id);
        assert DeckOf(last).voice.paused == last.paused;
        if id == last.id {
          assert forall s :: s in ss && s.id == id ==> s == last;
        }
      }
    }

    lemma {:induction false} SkippedStages(q: seq<int>)
      requires Structure()
      ensures Skipped(q) == PlayQueue.Dropped(Stages(), q)
      decreases |q|
    {
      if q != [] {
        PlayingStage(sounds, q[0]);
        SkippedStages(q[1..]);
      }
    }

    /** A play of the head of the queue turns the stage of its sound, if there is one, and of no other. */
    twostate lemma StageTurned(s: Sound)
      requires old(Structure()) && Structure() && Turned(First(queue), Event.Play) && s in sounds
      requires var ids := First(queue); old(Safe(ids, Event.Play))
      ensures s in old(sounds) && s.id == old(s.id)
      ensures var was := PlayQueue.StageOf(old(DeckOf(s)), old(SpriteOf(s)));
              PlayQueue.StageOf(DeckOf(s), SpriteOf(s))
              == if queue != [] && queue[0] == s.id then PlayQueue.Turn(was) else was
    {
      assert SpriteOf(s) == old(SpriteOf(s));
      if s.id in First(queue) {
        PlayQueue.PlayTurns(old(DeckOf(s)), old(SpriteOf(s)));
      }
    }

    twostate lemma {:induction false} StagesTurned(n: nat)
      requires old(Structure()) && Structure() && Turned(First(queue), Event.Play) && n <= |sounds|
      requires var ids := First(queue); old(Safe(ids, Event.Play))
      ensures var ss, sps := sounds[..n], sprites; StagesOf(ss, sps) == PlayQueue.HeadTurned(old(StagesOf(ss, sps)), queue)
      decreases n
    {
      if n > 0 {
        var s := sounds[n - 1];
        StagesTurned(n - 1);
        StageTurned(s);
        var rest, sps := sounds[..n - 1], sprites;
        assert sounds[..n][..n - 1] == rest;
        var before := old(StagesOf(rest, sps));
        var was := PlayQueue.StageOf(old(DeckOf(s)), old(SpriteOf(s)));
        PlayQueue.TurnedWith(before, s.id, was, queue);
      }
    }

    /** `_loadQueue()` over this queue is one step of the queue's own model. */
    twostate lemma QueueRan(q: seq<int>)
      requires old(Structure()) && Structure() && old(QueueSafe(q)) && queue == q[old(Skipped(q))..]
      requires old(Skipped(q)) == PlayQueue.Dropped(old(Stages()), q)
      requires Turned(First(queue), Event.Play) && Called()
      ensures QueueState() == PlayQueue.Next(old(QueueState()).(queue := q))
    {
      assert forall k :: k in First(queue) ==> k in q;
      StagesTurned(|sounds|);
      assert sounds[..|sounds|] == sounds;
      if queue != [] {
        PlayingStage(sounds, queue[0]);
      }
      PlayQueue.NextIs(old(QueueState()).(queue := q), QueueState());
    }

    /** Every queued id has been issued. */
    ghost predicate QueueIssued()
      reads `queue, howler`issued
    {
      forall k :: k in queue ==> k in howler.issued
    }

    /** Running one queued play leaves the others as safe as they were. */
    twostate lemma QueueStaysSafe(q: seq<int>)
      requires old(Structure()) && Structure() && old(QueueSafe(q)) && Turned(First(q), Event.Play)
      ensures QueueSafe(q)
    {
      forall s | s in sounds && s.id in q
        ensures !LoopsPastEnd(DeckOf(s), SpriteOf(s), Event.Play)
      {
        PlayedIsSafe(old(DeckOf(s)), old(SpriteOf(s)));
      }
    }

    /** A play leaves every sound that plays alone. */
    twostate lemma PlayLeavesPlaying(ids: set<int>)
      requires old(Structure()) && Turned(ids, Event.Play)
      ensures PlayingKept()
    {
    }

    /** One more callback, if the play at the head of the queue has started its sound. */
    twostate predicate Called()
      reads `queue, `playCallbacks, `sounds, sounds
    {
      playCallbacks == old(playCallbacks) + (if queue != [] && IsPlaying(queue[0]) then 1 else 0)
    }

    /** Running a deferred play. */
    method RunTask(id: int)
      requires Valid() && loaded && Safe({id}, Event.Play) && !IsPlaying(id)
      modifies `endTimers, `playCallbacks, sounds
      ensures Valid() && Turned({id}, Event.Play)
      ensures playCallbacks == old(playCallbacks) + (if IsPlaying(id) then 1 else 0)
    {
      var r := PlayId(id);
    }

    /** The plays at the head of the queue whose sound already plays are dropped: each emits 'play' at once. */
    method SkipPlaying()
      modifies `queue
      ensures queue == old(queue)[old(Skipped(queue))..] && (queue != [] ==> !IsPlaying(queue[0]))
      ensures forall s :: s in sounds ==> DeckOf(s) == old(DeckOf(s))
      decreases |queue|
    {
      if queue != [] && IsPlaying(queue[0]) {
        queue := queue[1..];
        SkipPlaying();
      }
    }

    /**
     `_loadQueue()` of a loaded group whose queue holds plays: the ones whose sound already plays are
     dropped, the next is run and stays at the head until its 'play' event.
     */
    method LoadQueue()
      requires Valid() && loaded && QueueSafe(queue)
      modifies `endTimers, `playCallbacks, `queue, sounds
      ensures Valid() && Called()
      ensures queue == old(queue)[old(Skipped(queue))..] && Turned(First(queue), Event.Play)
    {
      SkipPlaying();
      if queue != [] {
        RunTask(queue[0]);
      }
    }

    /** ... and what it keeps. */
    method StepLoaded()
      requires Valid() && loaded && QueueSafe(queue)
      modifies `endTimers, `playCallbacks, `queue, sounds
      ensures Valid() && (old(NoLoops()) ==> NoLoops()) && QueueSafe(queue)
      ensures queue == old(queue)[old(Skipped(queue))..] && Turned(First(queue), Event.Play)
      ensures QueueState() == PlayQueue.Next(old(QueueState()))
    {
      SkippedStages(queue);
      LoadQueue();
      TurnedNoLoops(Call(First(queue), Event.Play));
      QueueStaysSafe(queue);
      QueueRan(old(queue));
    }

    /** The sound whose play is at the head of the queue has started, unless it stood at its end. */
    twostate predicate StartedBy(q: seq<int>)
      requires Structure()
      reads `sounds, `endTimers, `sprites, `rate, howler, sounds
    {
      forall s :: s in sounds && s in old(sounds) && s.id in First(q) && old(s.paused) ==>
        (!s.paused <==> PlayFrom(old(s.seek), SpriteOf(s)) < SpriteOf(s).Stop())
    }

    /** `_loadQueue()`, and what becomes of the sound it plays. */
    method RunQueue()
      requires Valid() && loaded && QueueSafe(queue)
      modifies `endTimers, `playCallbacks, `queue, sounds
      ensures Valid() && (old(NoLoops()) ==> NoLoops()) && SamePool()
      ensures queue == old(queue)[old(Skipped(queue))..] && StartedBy(queue)
      ensures QueueSafe(queue) && QueueState() == PlayQueue.Next(old(QueueState()))
    {
      StepLoaded();
      TurnedStarts(queue);
    }

    twostate lemma TurnedStarts(q: seq<int>)
      requires old(Structure()) && Structure() && Turned(First(q), Event.Play)
      ensures StartedBy(q)
    {
      forall s | s in sounds && s.id in First(q) && old(s.paused)
        ensures !s.paused <==> PlayFrom(old(s.seek), SpriteOf(s)) < SpriteOf(s).Stop()
      {
        var d, sp := old(DeckOf(s)), old(SpriteOf(s));
        assert d.voice.paused && d.voice.seek == old(s.seek) && SpriteOf(s) == sp;
        assert DeckOf(s) == PlayStep(d, sp) && DeckOf(s).voice.paused == s.paused;
      }
    }

    /** The sprites once loading with this length is done. */
    function SpritesOnLoad(duration: real): map<string, Sprite>
      reads `sprites, `spritesDefined
    {
      if spritesDefined then sprites else sprites[DEFAULT := Sprite(0.0, duration * 1000.0, false)]
    }

    /** No queued play will be of a looping sound at or past its end when loading is done. */
    predicate SafeOnLoad(duration: real)
      requires Structure()
      reads `sounds, `endTimers, `sprites, `spritesDefined, `rate, `queue, howler, sounds
    {
      forall s :: s in sounds && s.id in queue ==>
        !LoopsPastEnd(DeckOf(s), SpritesOnLoad(duration)[s.sprite], Event.Play)
    }

    /** What a play will make of each sound of the pool when loading is done. */
    ghost function StagesOnLoad(duration: real): map<int, PlayQueue.Stage>
      requires Structure()
      reads `sounds, `endTimers, `sprites, `spritesDefined, `rate, howler, sounds
    {
      StagesOf(sounds, SpritesOnLoad(duration))
    }

    /** Without sprites of its own the group gets `__default`, as long as the audio. */
    method DefineSprites(duration: real)
      requires Valid() && duration >= 0.0
      modifies `sprites, `spritesDefined
      ensures Valid() && (old(NoLoops()) ==> NoLoops()) && spritesDefined
      ensures old(SafeOnLoad(duration)) ==> QueueSafe(queue)
      ensures Stages() == old(StagesOnLoad(duration)) && Skipped(queue) == old(Skipped(queue))
      ensures sprites == if old(spritesDefined) then old(sprites)
                         else old(sprites)[DEFAULT := Sprite(0.0, duration * 1000.0, false)]
    {
      if !spritesDefined {
        sprites := sprites[DEFAULT := Sprite(0.0, duration * 1000.0, false)];
        spritesDefined := true;
        SpritesDefined();
      }
    }

    method StepOnLoad()
      requires Valid() && loaded && QueueSafe(queue)
      modifies `endTimers, `playCallbacks, `queue, sounds
      ensures Valid() && (old(NoLoops()) ==> NoLoops())
      ensures SameSounds() && (old(queue) == [] ==> unchanged(sounds))
      ensures queue == old(queue)[old(Skipped(queue))..]
      ensures QueueSafe(queue) && QueueState() == PlayQueue.Next(old(QueueState()))
    {
      if queue != [] {
        StepLoaded();
      }
    }

    method MarkLoaded()
      requires Valid() && spritesDefined && QueueSafe(queue)
      modifies `loaded
      ensures Valid() && loaded && NoLoops() == old(NoLoops()) && Skipped(queue) == old(Skipped(queue))
      ensures QueueSafe(queue) && QueueState() == old(QueueState())
    {
      ghost var stages := Stages();
      loaded := true;
      assert Stages() == stages;
    }

    /** A load that completes starts the queue. */
    method BecomeLoaded()
      requires Valid() && spritesDefined && !loaded && QueueSafe(queue)
      modifies `endTimers, `playCallbacks, `queue, `loaded, sounds
      ensures Valid() && (old(NoLoops()) ==> NoLoops()) && loaded
      ensures SameSounds() && (old(queue) == [] ==> unchanged(sounds))
      ensures queue == old(queue)[old(Skipped(queue))..]
      ensures QueueSafe(queue) && QueueState() == PlayQueue.Next(old(QueueState()))
    {
      MarkLoaded();
      StepOnLoad();
    }

    method FinishLoading(duration: real)
      requires Valid() && !loaded && duration >= 0.0 && SafeOnLoad(duration)
      modifies `endTimers, `playCallbacks, `queue, `sprites, `spritesDefined, `loaded, sounds
      ensures Valid() && (old(NoLoops()) ==> NoLoops()) && loaded && spritesDefined && sprites == old(SpritesOnLoad(duration))
      ensures SameSounds() && (old(queue) == [] ==> unchanged(sounds))
      ensures queue == old(queue)[old(Skipped(queue))..]
      ensures QueueSafe(queue)
      ensures QueueState() == PlayQueue.Next(PlayQueue.State(old(StagesOnLoad(duration)), old(queue), old(playCallbacks)))
    {
      DefineSprites(duration);
      BecomeLoaded();
    }

    /** `loadSound`: the first load fixes the default sprite's length, and a load that completes starts the queue. */
    method LoadDone(duration: real)
      requires Valid() && duration >= 0.0 && (!loaded ==> SafeOnLoad(duration))
      modifies `endTimers, `playCallbacks, `queue, `sprites, `spritesDefined, `loaded, sounds
      ensures Valid() && (old(NoLoops()) ==> NoLoops()) && loaded
      ensures SameSounds() && |queue| <= |old(queue)| && (old(queue) == [] ==> unchanged(sounds))
      ensures old(QueueIssued()) ==> QueueIssued()
      ensures !old(loaded) ==>
                && QueueSafe(queue)
                && QueueState()
                   == PlayQueue.Next(PlayQueue.State(old(StagesOnLoad(duration)), old(queue), old(playCallbacks)))
      ensures spritesDefined
      ensures sprites == if old(spritesDefined) then old(sprites)
                         else old(sprites)[DEFAULT := Sprite(0.0, duration * 1000.0, false)]
    {
      if loaded {
        DefineSprites(duration);
      } else {
        FinishLoading(duration);
      }
    }

    /** Sprites may be defined while everything is paused. */
    twostate lemma SpritesDefined()
      requires old(Valid()) && !old(spritesDefined) && spritesDefined
      requires sounds == old(sounds) && endTimers == old(endTimers) && rate == old(rate) && loop == old(loop)
      requires unchanged(howler) && unchanged(sounds)
      requires forall n :: n in old(sprites) ==> n in sprites
      requires forall n :: n in sprites ==> sprites[n].Valid() && (sprites[n].loop ==> n in old(sprites) && old(sprites)[n].loop)
      ensures Valid() && (old(NoLoops()) ==> NoLoops())
    {
      forall s | s in sounds
        ensures DeckOf(s) == old(DeckOf(s)) && SoundOk(s)
      {
        assert old(SoundOk(s));
      }
    }

    /** The start of `load()`: back to loading, with one more sound in the pool. */
    method BeginLoad() returns (sound: Sound)
      requires Valid()
      modifies `loaded, `sounds, howler`counter, howler`issued
      ensures Valid() && (old(NoLoops()) ==> NoLoops()) && !loaded
      ensures sounds == old(sounds) + [sound] && fresh(sound) && sound.ended
      ensures sound.id == howler.counter == old(howler.counter) + 1
      ensures sound.id !in old(howler.issued) && howler.issued == old(howler.issued) + {sound.id}
    {
      loaded := false;
      label loading:
      sound := NewSound();
      assert sound.loop == FreshDeck(sound.State()).voice.loop && sound.ended == FreshDeck(sound.State()).voice.ended;
      NoLoopsKept@loading(sound);
    }

    /** `loadSound` for a group that has just begun to load. */
    method LoadedAtOnce(duration: real)
      requires Valid() && !loaded && duration >= 0.0 && SafeOnLoad(duration)
      modifies `endTimers, `playCallbacks, `queue, `sprites, `spritesDefined, `loaded, sounds
      ensures Valid() && (old(NoLoops()) ==> NoLoops()) && loaded && spritesDefined
      ensures sounds == old(sounds) && forall s :: s in sounds ==> s.id == old(s.id)
      ensures |queue| <= |old(queue)| && (old(queue) == [] ==> unchanged(sounds))
      ensures old(QueueIssued()) ==> QueueIssued()
      ensures sprites == if old(spritesDefined) then old(sprites)
                         else old(sprites)[DEFAULT := Sprite(0.0, duration * 1000.0, false)]
    {
      LoadDone(duration);
    }

    /** `load()`: a cached buffer loads at once. */
    method Load(cached: Option<real>) returns (sound: Sound)
      requires Valid() && (cached.Some? ==> cached.value >= 0.0 && QueueIssued() && SafeOnLoad(cached.value))
      modifies `endTimers, `playCallbacks, `queue, `sprites, `spritesDefined, `loaded, `sounds, sounds,
               howler`counter, howler`issued
      ensures Valid() && (old(NoLoops()) ==> NoLoops()) && loaded == cached.Some?
      ensures sounds == old(sounds) + [sound] && fresh(sound)
      ensures forall s :: s in old(sounds) ==> s.id == old(s.id)
      ensures sound.id == howler.counter == old(howler.counter) + 1
      ensures sound.id !in old(howler.issued) && howler.issued == old(howler.issued) + {sound.id}
      ensures |queue| <= |old(queue)| && (old(queue) == [] ==> sound.ended && unchanged(old(sounds)))
      ensures old(QueueIssued()) ==> QueueIssued()
      ensures spritesDefined == (old(spritesDefined) || cached.Some?)
      ensures sprites == if old(spritesDefined) || cached == None then old(sprites)
                         else old(sprites)[DEFAULT := Sprite(0.0, cached.value * 1000.0, false)]
    {
      sound := BeginLoad();
      assert forall s :: s in old(sounds) ==> s in sounds && s.id == old(s.id);
      if cached.Some? {
        LoadedAtOnce(cached.value);
      }
    }

    /** What running this queue puts at its back while the group is loading: its first play, if there is such a sound. */
    function Requeued(q: seq<int>): seq<int>
      reads `sounds, sounds
    {
      if q != [] && exists s :: s in sounds && s.id == q[0] then [q[0]] else []
    }

    /** `_loadQueue()`: before the group has loaded, the play it runs only joins the queue again. */
    method NextTask()
      requires Valid() && (loaded ==> QueueSafe(queue))
      modifies `endTimers, `playCallbacks, `queue, sounds
      ensures Valid() && IdsKept() && PoolWithin() && (old(NoLoops()) ==> NoLoops()) && PlayingKept()
      ensures loaded ==> queue == old(queue)[old(Skipped(queue))..] && Turned(First(queue), Event.Play) && QueueSafe(queue)
      ensures loaded ==> QueueState() == PlayQueue.Next(old(QueueState()))
      ensures !loaded && old(queue) == [] ==> queue == []
      ensures !loaded && old(queue) != [] ==> exists r :: DeferredOutcome(Some(old(queue)[0]), r)
      ensures !loaded ==> queue == old(queue) + old(Requeued(queue))
      ensures old(QueueIssued()) ==> QueueIssued()
    {
      if loaded {
        StepLoaded();
        PlayLeavesPlaying(First(queue));
      } else if queue != [] {
        var r := DeferResumed(queue[0]);
        assert DeferredOutcome(Some(old(queue)[0]), r);
      }
    }

    /** `_loadQueue('play')` of a group that is loading: the first play is dropped, and the next goes to the back. */
    method RequeueNext()
      requires Valid() && !loaded && queue != []
      modifies `endTimers, `playCallbacks, `queue, sounds
      ensures Valid() && IdsKept() && PoolWithin() && (old(NoLoops()) ==> NoLoops()) && PlayingKept()
      ensures queue == old(queue)[1..] + old(Requeued(queue[1..]))
      ensures old(QueueIssued()) ==> QueueIssued()
    {
      queue := queue[1..];
      NextTask();
    }

    /** `_loadQueue('play')`: a queued play is dropped and the queue goes on. */
    method PlayEmitted()
      requires Valid() && (loaded ==> QueueSafe(queue))
      modifies `endTimers, `playCallbacks, `queue, sounds
      ensures Valid() && IdsKept() && PoolWithin() && (old(NoLoops()) ==> NoLoops()) && PlayingKept()
      ensures old(queue) == [] ==> queue == [] && unchanged(sounds) && endTimers == old(endTimers)
      ensures loaded && old(queue) != [] ==> SteppedOutcome()
      ensures !loaded && old(queue) != [] ==> queue == old(queue)[1..] + old(Requeued(queue[1..]))
      ensures loaded ==> QueueSafe(queue) && QueueState() == PlayQueue.Emitted(old(QueueState()))
      ensures old(QueueIssued()) ==> QueueIssued()
    {
      if queue != [] {
        if loaded {
          PlayStepping();
          PlayLeavesPlaying(First(queue));
        } else {
          RequeueNext();
        }
      }
    }

    method UseCallback()
      requires Valid() && playCallbacks > 0
      modifies `playCallbacks
      ensures QueueState() == old(QueueState()).(callbacks := old(playCallbacks) - 1)
    {
      ghost var stages := Stages();
      playCallbacks := playCallbacks - 1;
      assert Stages() == stages;
    }

    /** `_emit('play')` and then `_loadQueue()`. */
    method StepTwice()
      requires Valid() && (loaded ==> QueueSafe(queue))
      modifies `endTimers, `playCallbacks, `queue, sounds
      ensures Valid() && (old(NoLoops()) ==> NoLoops()) && SameSounds()
      ensures loaded ==> QueueSafe(queue) && QueueState() == PlayQueue.Next(PlayQueue.Emitted(old(QueueState())))
      ensures old(QueueIssued()) ==> QueueIssued()
    {
      PlayEmitted();
      NextTask();
    }

    /** The callback left by a play: it emits 'play', which lets the queue step, and then runs the queue. */
    method PlayCallback()
      requires Valid() && (loaded ==> QueueSafe(queue)) && playCallbacks > 0
      modifies `endTimers, `playCallbacks, `queue, sounds
      ensures Valid() && (old(NoLoops()) ==> NoLoops()) && SameSounds()
      ensures loaded == old(loaded)
      ensures loaded ==> QueueSafe(queue) && QueueState() == PlayQueue.Callback(old(QueueState()))
      ensures old(QueueIssued()) ==> QueueIssued()
    {
      UseCallback();
      StepTwice();
    }

    // ------------------------------------------------------------ timeouts

    /** `_ended` of this sound goes round again, and then emits 'play'. */
    predicate Restarts(sound: Sound)
      requires sound.sprite in sprites
      reads `sprites, sound
    {
      sound.loop || sprites[sound.sprite].loop
    }

    /** The timeout itself, without the events `_ended` emits. */
    method RunTimeout(sound: Sound, deadline: real)
      requires Valid() && sound in sounds && deadline in sound.pending && deadline <= howler.now
      modifies this`endTimers, sounds
      ensures Valid() && Turned({old(sound.id)}, Event.Timeout(deadline))
      ensures !old(Restarts(sound)) ==> AtRest(sound)
    {
      ghost var d := DeckOf(sound);
      assert SoundOk(sound) && Enabled(DeckOf(sound), Event.Timeout(deadline));
      FireTimeout(sound, deadline);
      TurnedValid(Call({sound.id}, Event.Timeout(deadline)));
      if !old(Restarts(sound)) {
        assert DeckOf(sound).voice == RestedStep(d).voice && DeckOf(sound).voice.ended == sound.ended && SoundOk(sound);
        EndedSilent(sound);
      }
    }

    /** The queue has stepped: its head is dropped, the next play is run, and this sound has made its own step. */
    twostate predicate SteppedBut(sound: Sound)
      requires old(Structure())
      reads this, howler, sounds
    {
      && SameSounds() && (forall s :: s in sounds ==> s.sprite == old(s.sprite))
      && old(queue) != [] && queue == old(queue)[1..][old(Skipped(queue[1..]))..]
      && (forall s :: s in sounds && s != sound && s.id in First(queue) ==>
            DeckOf(s) == Step(old(DeckOf(s)), old(SpriteOf(s)), Event.Play))
      && (forall s :: s in sounds && s != sound && s.id !in First(queue) ==> DeckOf(s) == old(DeckOf(s)))
    }

    /** The 'play' event of a sound that plays, and is not touched by what the queue does. */
    method EmitFor(sound: Sound)
      requires Valid() && sound in sounds && !DeckOf(sound).voice.paused
      requires queue != [] && (loaded ==> QueueSafe(queue))
      modifies `endTimers, `playCallbacks, `queue, sounds
      ensures Valid() && IdsKept() && SameSounds() && forall s :: s in sounds ==> s.sprite == old(s.sprite)
      ensures DeckOf(sound) == old(DeckOf(sound)) && sound.pending == old(sound.pending)
      ensures loaded ==> queue == old(queue)[1..][old(Skipped(queue[1..]))..] && Turned(First(queue), Event.Play)
      ensures old(QueueIssued()) ==> QueueIssued()
    {
      PlayEmitted();
      assert DeckOf(sound).pending == sound.pending;
    }

    /** The timeout of a sound that goes round again, while calls are queued. */
    method RestartQueued(sound: Sound, deadline: real)
      requires Valid() && sound in sounds && deadline in sound.pending && deadline <= howler.now
      requires queue != [] && Restarts(sound) && (loaded ==> QueueSafe(queue))
      modifies `endTimers, `playCallbacks, `queue, sounds
      ensures Valid() && IdsKept() && PoolWithin() && SameSounds() && (loaded ==> SteppedBut(sound))
      ensures DeckOf(sound) == Step(old(DeckOf(sound)), old(SpriteOf(sound)), Event.Timeout(deadline))
      ensures old(QueueIssued()) ==> QueueIssued()
    {
      assert SoundOk(sound);
      EmitFor(sound);
      RunTimeout(sound, deadline);
    }

    /** A due timeout of this group runs. The 'play' event of a sound that goes round again steps the queue
        first, if there is one. */
    method Timeout(sound: Sound, deadline: real)
      requires Valid() && sound in sounds && deadline in sound.pending && deadline <= howler.now
      requires loaded && Restarts(sound) ==> QueueSafe(queue)
      modifies `endTimers, `playCallbacks, `queue, sounds
      ensures Valid() && IdsKept() && PoolWithin() && SameSounds()
      ensures DeckOf(sound) == Step(old(DeckOf(sound)), old(SpriteOf(sound)), Event.Timeout(deadline))
      ensures old(queue) == [] || !old(Restarts(sound)) ==> queue == old(queue) && Turned({old(sound.id)}, Event.Timeout(deadline))
      ensures loaded && old(queue) != [] && old(Restarts(sound)) ==> SteppedBut(sound)
      ensures !old(Restarts(sound)) ==> AtRest(sound) && sound in EndedSounds()
      ensures old(QueueIssued()) ==> QueueIssued()
    {
      if Restarts(sound) && queue != [] {
        RestartQueued(sound, deadline);
      } else {
        RunTimeout(sound, deadline);
      }
    }

    // ------------------------------------------------------------ unload

    /** What `unload` does to one sound: stop it if it plays, clear its timer. */
    static function Released(d: Deck, loaded: bool): Deck {
      if loaded && !d.voice.paused then RestStep(d) else Playhead.ClearTimer(d)
    }

    /** Nothing of a released sound is left with the browser, if the entry was its only timeout. */
    static lemma ReleasedSilent(d: Deck, sp: Sprite, loaded: bool)
      requires TimerOk(d, sp)
      ensures Released(d, loaded).entry == None && Released(d, loaded).pending == multiset{}
      ensures loaded ==> Released(d, loaded).voice.paused
    {
    }

    /** The sounds listed have been released; every other deck is untouched. */
    twostate predicate Freed(ids: set<int>)
      requires old(Structure())
      reads `sounds, `endTimers, `sprites, `spritesDefined, `pool, `loaded, howler, sounds
    {
      && SamePool()
      && (forall s :: s in sounds && s.id in ids ==> DeckOf(s) == Released(old(DeckOf(s)), loaded))
      && (forall s :: s in sounds && s.id !in ids ==> DeckOf(s) == old(DeckOf(s)))
    }

    method ReleaseOne(sound: Sound)
      requires Structure() && sound in sounds
      modifies `endTimers, sounds
      ensures Structure() && Became(sound, Released(old(DeckOf(sound)), loaded))
    {
      if loaded && !sound.paused {
        StopSound(sound);
        assert DeckOf(sound).entry == None;
      }
      ClearTimer(sound.id);
    }

    method ReleaseId(id: int)
      requires Structure()
      modifies `endTimers, sounds
      ensures Structure() && Freed({id})
    {
      var sound := SoundById(id);
      if sound != null {
        ReleaseOne(sound);
      }
    }

    /** With no sound holding an entry there are no entries: every key is a pool sound's id. */
    lemma NoTimers()
      requires Structure() && forall s :: s in sounds ==> DeckOf(s).entry == None
      ensures endTimers == map[]
    {
      assert forall k :: k in endTimers ==> DeckOf(endTimers[k].sound).entry == Some(endTimers[k].deadline);
      assert forall k :: k !in endTimers;
    }

    /** The loop of `unload`: every sound is released, by its id. */
    method ReleaseEach(ids: seq<int>, ghost wanted: set<int>)
      requires Structure()
      requires forall i, j :: 0 <= i < j < |ids| ==> ids[i] != ids[j]
      requires forall k :: k in wanted <==> k in ids
      modifies `endTimers, sounds
      ensures Structure() && Freed(wanted)
    {
      ghost var done: set<int> := {};
      for i := 0 to |ids|
        invariant Structure() && Freed(done)
        invariant forall j :: 0 <= j < |ids| ==> (ids[j] in done <==> j < i)
        invariant forall k :: k in done ==> k in ids
      {
        ReleaseId(ids[i]);
        done := done + {ids[i]};
      }
      AllDone(ids, done, wanted);
    }

    twostate lemma FreedAll(ids: set<int>)
      requires old(Valid()) && Structure() && Freed(ids) && forall s :: s in sounds ==> s.id in ids
      ensures endTimers == map[]
      ensures forall s :: s in sounds ==> s.pending == multiset{} && (loaded ==> s.paused)
    {
      forall s | s in sounds
        ensures DeckOf(s).entry == None && s.pending == multiset{} && (loaded ==> s.paused)
      {
        assert old(SoundOk(s)) && s.id in ids;
        ReleasedSilent(old(DeckOf(s)), old(SpriteOf(s)), loaded);
        assert DeckOf(s).pending == s.pending && DeckOf(s).voice.paused == s.paused;
      }
      NoTimers();
    }

    method ReleaseSounds()
      requires Valid()
      modifies `endTimers, sounds
      ensures Structure() && SamePool() && endTimers == map[]
      ensures forall s :: s in sounds ==> s.pending == multiset{} && (loaded ==> s.paused)
    {
      ghost var all := PoolIds();
      var ids := GetSoundIds(None);
      ReleaseEach(ids, all);
      FreedAll(all);
    }

    /** `unload`: nothing of this group is left in the controller, in its pool, or in the browser's timers. */
    method Unload()
      requires Valid()
      modifies `endTimers, `sounds, `loaded, sounds, howler`howls
      ensures Valid() && sounds == [] && endTimers == map[] && !loaded
      ensures forall s :: s in old(sounds) ==> s.pending == multiset{} && (old(loaded) ==> s.paused)
      ensures howler.howls == RemoveFirst(old(howler.howls), this)
    {
      ReleaseSounds();
      howler.howls := RemoveFirst(howler.howls, this);
      loaded := false;
      sounds := [];
    }
  }
}
