/**
 Whole runs of one sound: the representation in `Playhead` refines an ideal player that simply
 stores its position, the playhead is the integral of the rate, and the end timer is right over
 every run that never starts a looping sound past its end.
 */
module PlayheadRuns {
  import opened Wrappers
  import opened Playhead

  /** A player that stores the position it is at. `origin` is where an ended or stopped sound rewinds to; a sound
      counts as ended, and may be given away, from when it is stopped or reaches its end until it is played or moved. */
  datatype Ideal = Ideal(position: real, rate: real, playing: bool, ended: bool, origin: real, loop: bool)

  function View(d: Deck): Ideal {
    Ideal(Position(d.voice, d.now), d.voice.rate, !d.voice.paused, d.voice.ended, d.voice.start.GetOr(0.0), d.voice.loop)
  }

  /** Start a stopped ideal player: from the sprite's offset when it stands at 0, not at all when past the end. */
  function Begin(i: Ideal, sp: Sprite): Ideal {
    var from := if i.position > 0.0 then i.position else sp.Start();
    if from >= sp.Stop() then i.(position := i.origin, ended := !(i.loop || sp.loop))
    else i.(position := from, playing := true, ended := false, origin := sp.Start(), loop := i.loop || sp.loop)
  }

  function IdealStep(i: Ideal, sp: Sprite, e: Event): Ideal {
    match e
    case Elapse(dt) => if i.playing then i.(position := i.position + Abs(i.rate) * dt) else i
    case Play => if i.playing then i else Begin(i, sp)
    case Pause => i.(playing := false)
    case Stop => i.(playing := false, ended := true, position := i.origin)
    case SetRate(rate) => i.(rate := rate)
    case SeekTo(position) =>
      if position < 0.0 then i
      else if i.playing then Begin(i.(position := position, playing := false), sp)
      else i.(position := position, ended := false)
    case SetLoop(on) =>
      var looped := i.(loop := on);
      if on && i.playing then Begin(looped.(playing := false), sp) else looped
    case Timeout(_) =>
      if i.loop || sp.loop then i.(position := i.origin) else i.(position := i.origin, playing := false, ended := true)
  }

  function Run(d: Deck, sp: Sprite, es: seq<Event>): Deck
    decreases |es|
  {
    if es == [] then d else Run(Step(d, sp, es[0]), sp, es[1..])
  }

  function IdealRun(i: Ideal, sp: Sprite, es: seq<Event>): Ideal
    decreases |es|
  {
    if es == [] then i else IdealRun(IdealStep(i, sp, es[0]), sp, es[1..])
  }

  predicate Follows(d: Deck, sp: Sprite, es: seq<Event>)
    decreases |es|
  {
    es == [] || (Enabled(d, es[0]) && Follows(Step(d, sp, es[0]), sp, es[1..]))
  }

  // ---------------------------------------------------------------- refinement

  lemma PlayBegins(d: Deck, sp: Sprite)
    requires sp.Valid() && VoiceOk(d.voice, d.now) && d.voice.paused
    ensures View(PlayStep(d, sp)) == Begin(View(d), sp)
  {
    var played := PlayStep(d, sp).voice;
    assert !played.paused ==> (d.now - played.playStart) * Abs(played.rate) == 0.0;
  }

  lemma PauseHolds(d: Deck)
    requires VoiceOk(d.voice, d.now)
    ensures View(PauseStep(d)) == View(d).(playing := false)
    ensures VoiceOk(PauseStep(d).voice, d.now) && PauseStep(d).now == d.now
  {
    PositionNonnegative(d.voice, d.now);
  }

  lemma RateRefines(d: Deck, sp: Sprite, rate: real)
    requires VoiceOk(d.voice, d.now) && rate != 0.0
    ensures View(RateStep(d, sp, rate)) == View(d).(rate := rate)
  {
    if !d.voice.paused {
      RatePosition(d, rate);
    }
  }

  lemma SeekRefines(d: Deck, sp: Sprite, position: real)
    requires sp.Valid() && VoiceOk(d.voice, d.now) && position >= 0.0
    ensures View(SeekStep(d, sp, position)) == IdealStep(View(d), sp, SeekTo(position))
  {
    PauseHolds(d);
    var held := if d.voice.paused then d else PauseStep(d);
    var moved := MoveStep(held, position);
    assert View(moved) == View(d).(position := position, playing := false, ended := false);
    if !d.voice.paused {
      PlayBegins(moved, sp);
    }
  }

  lemma LoopRefines(d: Deck, sp: Sprite, on: bool)
    requires sp.Valid() && VoiceOk(d.voice, d.now)
    ensures View(LoopStep(d, sp, on)) == IdealStep(View(d), sp, SetLoop(on))
  {
    var looped := d.(voice := d.voice.(loop := on));
    assert View(looped) == View(d).(loop := on);
    if on && !d.voice.paused {
      PauseHolds(looped);
      PlayBegins(PauseStep(looped), sp);
    }
  }

  /** The commuting square: rebasing `_rateSeek` and `_playStart` is invisible from outside. */
  lemma StepRefines(d: Deck, sp: Sprite, e: Event)
    requires sp.Valid() && VoiceOk(d.voice, d.now) && Enabled(d, e)
    ensures View(Step(d, sp, e)) == IdealStep(View(d), sp, e)
  {
    match e {
      case Elapse(dt) => PositionMoves(d.voice, d.now, dt);
      case Play => if d.voice.paused { PlayBegins(d, sp); }
      case Pause => PauseHolds(d);
      case Stop =>
      case SetRate(rate) => RateRefines(d, sp, rate);
      case SeekTo(position) => if position >= 0.0 { SeekRefines(d, sp, position); }
      case SetLoop(on) => LoopRefines(d, sp, on);
      case Timeout(deadline) =>
    }
  }

  lemma {:induction false} RunRefines(d: Deck, sp: Sprite, es: seq<Event>)
    requires sp.Valid() && VoiceOk(d.voice, d.now) && Follows(d, sp, es)
    ensures View(Run(d, sp, es)) == IdealRun(View(d), sp, es)
    decreases |es|
  {
    if es != [] {
      StepRefines(d, sp, es[0]);
      VoiceKept(d, sp, es[0]);
      RunRefines(Step(d, sp, es[0]), sp, es[1..]);
    }
  }

  // ---------------------------------------------------------------- the playhead is the integral of the rate

  /** The sum of |rate| * dt over the stretches of time spent playing. */
  function Travelled(i: Ideal, sp: Sprite, es: seq<Event>): real
    decreases |es|
  {
    if es == [] then 0.0
    else (if es[0].Elapse? && i.playing then Abs(i.rate) * es[0].dt else 0.0)
         + Travelled(IdealStep(i, sp, es[0]), sp, es[1..])
  }

  /** Only time, rate changes, pause and resume; every resume before the end, and not from 0 into an offset sprite. */
  predicate Uninterrupted(i: Ideal, sp: Sprite, es: seq<Event>)
    decreases |es|
  {
    es == [] || (
      && (es[0].Elapse? || es[0].SetRate? || es[0].Pause? || es[0].Play?)
      && (es[0].Play? && !i.playing ==> i.position < sp.Stop() && (i.position > 0.0 || sp.Start() == 0.0))
      && Uninterrupted(IdealStep(i, sp, es[0]), sp, es[1..]))
  }

  lemma {:induction false} IdealTravels(i: Ideal, sp: Sprite, es: seq<Event>)
    requires i.position >= 0.0 && Uninterrupted(i, sp, es)
    requires forall e :: e in es && e.Elapse? ==> e.dt >= 0.0
    ensures IdealRun(i, sp, es).position == i.position + Travelled(i, sp, es)
    decreases |es|
  {
    if es != [] {
      if es[0].Elapse? && i.playing {
        assert es[0] in es;
        assert Abs(i.rate) * es[0].dt >= 0.0;
      }
      IdealTravels(IdealStep(i, sp, es[0]), sp, es[1..]);
    }
  }

  lemma {:induction false} FollowsForward(d: Deck, sp: Sprite, es: seq<Event>)
    requires Follows(d, sp, es)
    ensures forall e :: e in es && e.Elapse? ==> e.dt >= 0.0
    decreases |es|
  {
    if es != [] {
      FollowsForward(Step(d, sp, es[0]), sp, es[1..]);
    }
  }

  /** `seek(id)` after any such run is the starting position plus the integral of the rate. */
  lemma PlayheadIsIntegral(d: Deck, sp: Sprite, es: seq<Event>)
    requires sp.Valid() && VoiceOk(d.voice, d.now) && Follows(d, sp, es) && Uninterrupted(View(d), sp, es)
    ensures var r := Run(d, sp, es);
            Position(r.voice, r.now) == Position(d.voice, d.now) + Travelled(View(d), sp, es)
  {
    RunRefines(d, sp, es);
    PositionNonnegative(d.voice, d.now);
    FollowsForward(d, sp, es);
    IdealTravels(View(d), sp, es);
  }

  /** Exactly when resuming a paused sound leaves its position alone. */
  lemma ResumeKeepsPosition(d: Deck, sp: Sprite)
    requires sp.Valid() && VoiceOk(d.voice, d.now) && d.voice.paused
    ensures var r := Step(d, sp, Play);
            Position(r.voice, r.now) == Position(d.voice, d.now) <==>
            if PlayFrom(d.voice.seek, sp) >= sp.Stop() then d.voice.seek == d.voice.start.GetOr(0.0)
            else d.voice.seek > 0.0 || sp.Start() == 0.0
  {
    StepRefines(d, sp, Play);
  }

  // ---------------------------------------------------------------- the end timer

  /** No step of the run starts a looping sound at or past its sprite's end. */
  predicate AvoidsLoopsPastEnd(d: Deck, sp: Sprite, es: seq<Event>)
    decreases |es|
  {
    es == [] || (!LoopsPastEnd(d, sp, es[0]) && AvoidsLoopsPastEnd(Step(d, sp, es[0]), sp, es[1..]))
  }

  predicate AvoidsLateRateChanges(d: Deck, sp: Sprite, es: seq<Event>)
    decreases |es|
  {
    es == [] || (!LateRateChange(d, sp, es[0]) && AvoidsLateRateChanges(Step(d, sp, es[0]), sp, es[1..]))
  }

  /** The discipline holds in every state the run passes through. */
  predicate OkThroughout(d: Deck, sp: Sprite, es: seq<Event>)
    decreases |es|
  {
    DeckOk(d, sp) && (es == [] || OkThroughout(Step(d, sp, es[0]), sp, es[1..]))
  }

  /** Over whole runs the discipline holds throughout if and only if the one bad start never happens. */
  lemma {:induction false} TimerOkThroughout(d: Deck, sp: Sprite, es: seq<Event>)
    requires DeckOk(d, sp) && Follows(d, sp, es)
    ensures OkThroughout(d, sp, es) <==> AvoidsLoopsPastEnd(d, sp, es)
    decreases |es|
  {
    if es != [] {
      var next := Step(d, sp, es[0]);
      TimerKept(d, sp, es[0]);
      if DeckOk(next, sp) {
        TimerOkThroughout(next, sp, es[1..]);
      } else {
        assert !OkThroughout(next, sp, es[1..]);
      }
    }
  }

  /** ... and the deadline is then the instant the playhead reaches the sprite's end. */
  lemma {:induction false} EndTimerAgrees(d: Deck, sp: Sprite, es: seq<Event>)
    requires DeckOk(d, sp) && Agrees(d, sp) && Follows(d, sp, es)
    requires AvoidsLoopsPastEnd(d, sp, es) && AvoidsLateRateChanges(d, sp, es)
    ensures DeckOk(Run(d, sp, es), sp) && Agrees(Run(d, sp, es), sp)
    decreases |es|
  {
    if es != [] {
      TimerKept(d, sp, es[0]);
      EndTimerAgrees(Step(d, sp, es[0]), sp, es[1..]);
    }
  }

  /** `_ended` never runs before the playhead reaches the end, and a punctual timer finds it exactly there. */
  lemma TimeoutFindsTheEnd(d: Deck, sp: Sprite, deadline: real)
    requires DeckOk(d, sp) && Enabled(d, Timeout(deadline))
    ensures Position(d.voice, d.now) >= sp.Stop()
    ensures Agrees(d, sp) && d.now == deadline ==> Position(d.voice, d.now) == sp.Stop()
  {
    assert d.entry == Some(deadline);
    assert Abs(d.voice.rate) * (deadline - d.now) <= 0.0;
  }

  /** A sound as `Sound.init` leaves it. */
  function NewVoice(rate: real, loop: bool): Voice {
    Voice(0.0, 0.0, true, true, None, None, loop, rate, 0.0, false)
  }

  function NewDeck(rate: real, loop: bool, now: real): Deck {
    Deck(NewVoice(rate, loop), now, None, multiset{})
  }

  /** The three steps one by one. */
  lemma LeakSteps(d: Deck, d1: Deck, d2: Deck, d3: Deck)
    requires var sp := Sprite(0.0, 2000.0, false);
             d == NewDeck(1.0, true, 0.0) && d1 == Step(d, sp, SeekTo(5.0)) && d2 == Step(d1, sp, Play)
             && d3 == Step(d2, sp, Play)
    ensures d2.voice.paused && d2.entry == Some(0.0) && d2.pending == multiset{0.0}
    ensures !d3.voice.paused && d3.pending == multiset{0.0, 2.0} && d3.now == 0.0
    ensures Position(d3.voice, d3.now) == 0.0
  {
    assert d1 == d.(voice := d.voice.(seek := 5.0, ended := false));
    assert d2 == RestartStep(d1.(voice := d1.voice.(ended := false)));
    assert d2.voice.seek == 0.0 && d2.pending == multiset{0.0};
    assert d3 == StartStep(d2, Sprite(0.0, 2000.0, false), 0.0);
    assert TimeFor(2.0, 1.0) == 2.0;
    assert d3.pending == multiset{0.0} + multiset{2.0};
  }

  /**
   Why the exception is needed: on a looping two-second sound, seek past the end and press play twice.
   The first play leaves a timer under a paused sound, the second starts it and overwrites the entry
   without clearing it, so two timeouts stay live and the orphan will cut the sound short.
   */
  lemma LoopPastEndLeaksATimer()
    ensures var sp := Sprite(0.0, 2000.0, false);
            var d := NewDeck(1.0, true, 0.0);
            var once := Run(d, sp, [SeekTo(5.0), Play]);
            var twice := Run(d, sp, [SeekTo(5.0), Play, Play]);
            && DeckOk(d, sp)
            && once.voice.paused && once.entry == Some(0.0)
            && !twice.voice.paused && twice.pending == multiset{0.0, 2.0}
            && Enabled(twice, Timeout(0.0)) && Position(twice.voice, twice.now) == 0.0
  {
    var sp := Sprite(0.0, 2000.0, false);
    var d := NewDeck(1.0, true, 0.0);
    var d1 := Step(d, sp, SeekTo(5.0));
    var d2 := Step(d1, sp, Play);
    var d3 := Step(d2, sp, Play);
    LeakSteps(d, d1, d2, d3);
    assert [SeekTo(5.0), Play, Play][1..] == [Play, Play] && [SeekTo(5.0), Play][1..] == [Play];
    assert [Play, Play][1..] == [Play] && [Play][1..] == [];
    assert Run(d, sp, [SeekTo(5.0), Play]) == Run(d1, sp, [Play]) == Run(d2, sp, []) == d2;
    assert Run(d, sp, [SeekTo(5.0), Play, Play]) == Run(d1, sp, [Play, Play]) == Run(d2, sp, [Play]) == Run(d3, sp, []) == d3;
  }
}
