/**
 One sound of a Web Audio group as the player keeps it: a playhead that is never stored but
 recomputed from `_seek`, `_rateSeek` and `_playStart`, and an end timer that must agree with it.

 `Deck` is everything one sound contributes to the running player: its `Voice` (the transport
 fields of the Sound object), the clock, its entry in `_endTimers`, and the timeouts the browser
 still holds whose callback is `_ended` bound to this Sound. Times are exact reals in seconds.
 */
module Playhead {
  import opened Wrappers

  /** A sprite definition `[offset, length, loop]`, in milliseconds. */
  datatype Sprite = Sprite(offset: real, length: real, loop: bool) {
    predicate Valid() {
      offset >= 0.0 && length >= 0.0
    }

    /** Seconds, as the transport counts. */
    function Start(): (seconds: real)
      ensures 1000.0 * seconds == offset
    {
      offset / 1000.0
    }

    function Stop(): (seconds: real)
      ensures 1000.0 * seconds == offset + length
    {
      (offset + length) / 1000.0
    }
  }

  datatype Voice = Voice(
    seek: real,
    rateSeek: real,          // 0.0 also stands for "never set": both are falsy
    paused: bool,
    ended: bool,
    start: Option<real>,
    stop: Option<real>,
    loop: bool,
    rate: real,
    playStart: real,
    bufferSource: bool)

  /** `pending` holds the deadlines of live timeouts bound to the sound; `entry` is `_endTimers[id]`. */
  datatype Deck = Deck(voice: Voice, now: real, entry: Option<real>, pending: multiset<real>)

  datatype Event =
    | Elapse(dt: real)
    | Play
    | Pause
    | Stop
    | SetRate(rate: real)
    | SeekTo(position: real)
    | SetLoop(on: bool)
    | Timeout(deadline: real)

  // ---------------------------------------------------------------- the player's own arithmetic

  /** How far the playhead moves in dt seconds. */
  function Travel(dt: real, rate: real): real {
    dt * Abs(rate)
  }

  /** How long the playhead takes for a distance; a timeout of Infinity, for rate 0, fires at once. */
  function TimeFor(distance: real, rate: real): real {
    if rate == 0.0 then 0.0 else distance / Abs(rate)
  }

  /** What `seek(id)` returns. */
  function Position(v: Voice, now: real): real {
    var realTime := if v.paused then 0.0 else now - v.playStart;
    var rateSeek := if v.rateSeek != 0.0 then v.rateSeek - v.seek else 0.0;
    v.seek + (rateSeek + Travel(realTime, v.rate))
  }

  /** Where a paused sound starts when played: its own position, or the sprite's offset when that is 0. */
  function PlayFrom(seek: real, sp: Sprite): real {
    Max(0.0, if seek > 0.0 then seek else sp.Start())
  }

  function ClearTimer(d: Deck): Deck {
    match d.entry
    case None => d
    case Some(deadline) => d.(entry := None, pending := d.pending - multiset{deadline})
  }

  /** `_endTimers[id] = setTimeout(...)`: whatever the entry held before is overwritten, not cleared. */
  function Arm(d: Deck, timeout: real): Deck {
    var deadline := d.now + Max(0.0, timeout);
    d.(entry := Some(deadline), pending := d.pending + multiset{deadline})
  }

  function Loops(v: Voice, sp: Sprite): bool {
    v.loop || sp.loop
  }

  /** `_ended` on a loop: rewind, keep whatever state it was in, arm the timer for one more round. */
  function RestartStep(d: Deck): Deck {
    var v := d.voice;
    // start and stop are unset on a sound that never started: the timeout is NaN, which fires at once
    var length := if v.start.Some? && v.stop.Some? then v.stop.value - v.start.value else 0.0;
    Arm(d.(voice := v.(seek := v.start.GetOr(0.0), rateSeek := 0.0, playStart := d.now)), TimeFor(length, v.rate))
  }

  /** Back to the start, at rest. */
  function RestedStep(d: Deck): Deck {
    d.(voice := d.voice.(seek := d.voice.start.GetOr(0.0), rateSeek := 0.0, paused := true, ended := true,
                         bufferSource := false))
  }

  /** `stop`, and `_ended` without a loop. */
  function RestStep(d: Deck): Deck {
    RestedStep(ClearTimer(d))
  }

  function EndedStep(d: Deck, sp: Sprite): Deck {
    if Loops(d.voice, sp) then RestartStep(d) else RestStep(d)
  }

  /** `setParams` and the start of the buffer source at `seek`. */
  function ParamStep(d: Deck, sp: Sprite, seek: real): Deck {
    var v := d.voice;
    d.(voice := v.(ended := false, paused := false, seek := seek, start := Some(sp.Start()), stop := Some(sp.Stop()),
                   loop := v.loop || sp.loop, playStart := d.now, bufferSource := true))
  }

  /** `playWebAudio`. */
  function StartStep(d: Deck, sp: Sprite, seek: real): Deck {
    var started := ParamStep(d, sp, seek);
    if d.voice.rate == 0.0 then started else Arm(started, TimeFor(Max(0.0, sp.Stop() - seek), d.voice.rate))
  }

  /** `playWebAudio` of a play that waited for the context: position, sprite and timeout are those of its call. */
  function LateStartStep(d: Deck, sp: Sprite, seek: real, timeout: real): Deck {
    Arm(ParamStep(d, sp, seek), timeout)
  }

  function PlayStep(d: Deck, sp: Sprite): Deck {
    if !d.voice.paused then d
    else
      var seek := PlayFrom(d.voice.seek, sp);
      if seek >= sp.Stop() then EndedStep(d.(voice := d.voice.(ended := false)), sp) else StartStep(d, sp, seek)
  }

  /** A playing sound stops where it is. */
  function HoldStep(d: Deck): Deck {
    if d.voice.paused then d
    else d.(voice := d.voice.(seek := Position(d.voice, d.now), rateSeek := 0.0, paused := true, bufferSource := false))
  }

  function PauseStep(d: Deck): Deck {
    HoldStep(ClearTimer(d))
  }

  /** A playing sound's position becomes the base it goes on from. */
  function RebaseStep(d: Deck): Deck {
    if d.voice.paused then d else d.(voice := d.voice.(rateSeek := Position(d.voice, d.now), playStart := d.now))
  }

  /** `rate(r, id)`: a playing sound is rebased before the rate changes. */
  function TuneStep(d: Deck, rate: real): Deck {
    var based := RebaseStep(d);
    based.(voice := based.voice.(rate := rate))
  }

  /** How long the sound still has to play; negative when its end timer is overdue. */
  function TimeLeft(d: Deck, sp: Sprite): real {
    TimeFor(sp.Stop() - Position(d.voice, d.now), d.voice.rate)
  }

  /** ... and a sound that plays, or has a timer, gets a new one. */
  function RetimeStep(d: Deck, sp: Sprite): Deck {
    if d.entry.Some? || !d.voice.paused then Arm(ClearTimer(d), TimeLeft(d, sp)) else d
  }

  function RateStep(d: Deck, sp: Sprite, rate: real): Deck {
    RetimeStep(TuneStep(d, rate), sp)
  }

  function MoveStep(d: Deck, position: real): Deck {
    ClearTimer(d.(voice := d.voice.(seek := position, ended := false)))
  }

  function SeekStep(d: Deck, sp: Sprite, position: real): Deck {
    if position < 0.0 then d else
    var held := if d.voice.paused then d else PauseStep(d);
    var moved := MoveStep(held, position);
    if d.voice.paused then moved else PlayStep(moved, sp)
  }

  function LoopStep(d: Deck, sp: Sprite, on: bool): Deck {
    var looped := d.(voice := d.voice.(loop := on));
    if d.voice.bufferSource && on && !d.voice.paused then PlayStep(PauseStep(looped), sp) else looped
  }

  /** The browser runs a timeout: it leaves `pending`, the entry in `_endTimers` stays until overwritten. */
  function TimeoutStep(d: Deck, sp: Sprite, deadline: real): Deck {
    EndedStep(d.(pending := d.pending - multiset{deadline}), sp)
  }

  function Step(d: Deck, sp: Sprite, e: Event): Deck {
    match e
    case Elapse(dt) => d.(now := d.now + dt)
    case Play => PlayStep(d, sp)
    case Pause => PauseStep(d)
    case Stop => RestStep(d)
    case SetRate(rate) => RateStep(d, sp, rate)
    case SeekTo(position) => SeekStep(d, sp, position)
    case SetLoop(on) => LoopStep(d, sp, on)
    case Timeout(deadline) => TimeoutStep(d, sp, deadline)
  }

  /** Time moves forward, rates are nonzero, and a timeout runs only when it is due (possibly late). */
  predicate Enabled(d: Deck, e: Event) {
    match e
    case Elapse(dt) => dt >= 0.0
    case SetRate(rate) => rate != 0.0
    case Timeout(deadline) => deadline in d.pending && deadline <= d.now
    case _ => true
  }

  // ---------------------------------------------------------------- invariants

  predicate VoiceOk(v: Voice, now: real) {
    && v.seek >= 0.0 && v.rateSeek >= 0.0 && v.rate != 0.0
    && (v.ended ==> v.paused)
    && (v.paused ==> v.rateSeek == 0.0)
    && (v.start.Some? ==> v.start.value >= 0.0)
    && (!v.paused ==> v.playStart <= now && v.start.Some? && v.stop.Some?)
    && (v.bufferSource <==> !v.paused)
  }

  /** At the deadline the playhead will be at the sprite's end or past it: no sound is cut short. */
  predicate NotEarly(d: Deck, sp: Sprite) {
    d.entry.Some? ==>
      Position(d.voice, d.now) + Travel(d.entry.value - d.now, d.voice.rate) >= sp.Stop()
  }

  /** At the deadline the playhead will be exactly at the sprite's end. */
  predicate Agrees(d: Deck, sp: Sprite) {
    d.entry.Some? ==>
      Position(d.voice, d.now) + Travel(d.entry.value - d.now, d.voice.rate) == sp.Stop()
  }

  /**
   A playing sound has exactly one live timeout, and it is the one in `_endTimers`; a paused one has none.
   A deadline still ahead is exactly right; one that has come finds the playhead at the end or past it.
   */
  predicate TimerOk(d: Deck, sp: Sprite) {
    && (d.entry.Some? <==> !d.voice.paused)
    && d.pending == (if d.entry.Some? then multiset{d.entry.value} else multiset{})
    && (!d.voice.paused ==> d.voice.start == Some(sp.Start()) && d.voice.stop == Some(sp.Stop()))
    && NotEarly(d, sp)
    && (d.entry.Some? && d.entry.value > d.now ==> Agrees(d, sp))
  }

  predicate DeckOk(d: Deck, sp: Sprite) {
    sp.Valid() && VoiceOk(d.voice, d.now) && TimerOk(d, sp)
  }

  /** The one case that breaks the timer discipline: a looping sound is (re)started at or past its sprite's end. */
  predicate LoopsPastEnd(d: Deck, sp: Sprite, e: Event) {
    match e
    case Play => d.voice.paused && PlayFrom(d.voice.seek, sp) >= sp.Stop() && Loops(d.voice, sp)
    case SeekTo(position) =>
      position >= 0.0 && !d.voice.paused && PlayFrom(position, sp) >= sp.Stop() && Loops(d.voice, sp)
    case SetLoop(on) =>
      on && !d.voice.paused && PlayFrom(Position(d.voice, d.now), sp) >= sp.Stop()
    case _ => false
  }

  /** A rate change that comes while the end timer is overdue. */
  predicate LateRateChange(d: Deck, sp: Sprite, e: Event) {
    e.SetRate? && !d.voice.paused && Position(d.voice, d.now) > sp.Stop()
  }

  // ---------------------------------------------------------------- arithmetic helpers

  lemma QuotientTimes(x: real, r: real)
    requires r > 0.0
    ensures r * (x / r) == x
    ensures x >= 0.0 ==> x / r >= 0.0
  {
  }

  lemma PositionMoves(v: Voice, now: real, dt: real)
    ensures Position(v, now + dt) == Position(v, now) + (if v.paused then 0.0 else Abs(v.rate) * dt)
  {
    if !v.paused {
      assert (now + dt - v.playStart) * Abs(v.rate) == (now - v.playStart) * Abs(v.rate) + dt * Abs(v.rate);
    }
  }

  lemma PositionNonnegative(v: Voice, now: real)
    requires VoiceOk(v, now)
    ensures Position(v, now) >= 0.0
  {
    if !v.paused {
      assert (now - v.playStart) * Abs(v.rate) >= 0.0;
    }
  }

  // ---------------------------------------------------------------- the invariants are kept

  lemma EndedVoice(d: Deck, sp: Sprite)
    requires VoiceOk(d.voice, d.now)
    ensures VoiceOk(EndedStep(d, sp).voice, d.now) && EndedStep(d, sp).now == d.now
  {
  }

  lemma PlayVoice(d: Deck, sp: Sprite)
    requires sp.Valid() && VoiceOk(d.voice, d.now)
    ensures VoiceOk(PlayStep(d, sp).voice, d.now) && PlayStep(d, sp).now == d.now
  {
    EndedVoice(d.(voice := d.voice.(ended := false)), sp);
  }

  lemma PauseVoice(d: Deck)
    requires VoiceOk(d.voice, d.now)
    ensures VoiceOk(PauseStep(d).voice, d.now) && PauseStep(d).now == d.now && PauseStep(d).voice.paused
  {
    PositionNonnegative(d.voice, d.now);
  }

  lemma RateVoice(d: Deck, sp: Sprite, rate: real)
    requires VoiceOk(d.voice, d.now) && rate != 0.0
    ensures VoiceOk(RateStep(d, sp, rate).voice, d.now) && RateStep(d, sp, rate).now == d.now
  {
    PositionNonnegative(d.voice, d.now);
  }

  lemma SeekVoice(d: Deck, sp: Sprite, position: real)
    requires sp.Valid() && VoiceOk(d.voice, d.now)
    ensures VoiceOk(SeekStep(d, sp, position).voice, d.now) && SeekStep(d, sp, position).now == d.now
  {
    PauseVoice(d);
    var held := if d.voice.paused then d else PauseStep(d);
    if position >= 0.0 {
      PlayVoice(MoveStep(held, position), sp);
    }
  }

  lemma LoopVoice(d: Deck, sp: Sprite, on: bool)
    requires sp.Valid() && VoiceOk(d.voice, d.now)
    ensures VoiceOk(LoopStep(d, sp, on).voice, d.now) && LoopStep(d, sp, on).now == d.now
  {
    var looped := d.(voice := d.voice.(loop := on));
    PauseVoice(looped);
    PlayVoice(PauseStep(looped), sp);
  }

  lemma VoiceKept(d: Deck, sp: Sprite, e: Event)
    requires sp.Valid() && VoiceOk(d.voice, d.now) && Enabled(d, e)
    ensures VoiceOk(Step(d, sp, e).voice, Step(d, sp, e).now)
  {
    match e {
      case Elapse(dt) =>
      case Play => PlayVoice(d, sp);
      case Pause => PauseVoice(d);
      case Stop =>
      case SetRate(rate) => RateVoice(d, sp, rate);
      case SeekTo(position) => SeekVoice(d, sp, position);
      case SetLoop(on) => LoopVoice(d, sp, on);
      case Timeout(deadline) => EndedVoice(d.(pending := d.pending - multiset{deadline}), sp);
    }
  }

  /** Arming a timer for the time the playhead still needs puts the playhead at the end when it is due. */
  lemma ArmedForTheRest(d: Deck, sp: Sprite, left: real)
    requires d.voice.rate != 0.0
    requires left == sp.Stop() - Position(d.voice, d.now)
    ensures NotEarly(Arm(d, TimeFor(left, d.voice.rate)), sp)
    ensures left >= 0.0 ==> Agrees(Arm(d, TimeFor(left, d.voice.rate)), sp)
  {
    QuotientTimes(left, Abs(d.voice.rate));
    if left < 0.0 {
      QuotientTimes(-left, Abs(d.voice.rate));
    }
  }

  lemma PlayTimer(d: Deck, sp: Sprite)
    requires DeckOk(d, sp) && d.voice.paused
    ensures TimerOk(PlayStep(d, sp), sp) <==> !LoopsPastEnd(d, sp, Play)
    ensures !LoopsPastEnd(d, sp, Play) ==> Agrees(PlayStep(d, sp), sp)
  {
    var seek := PlayFrom(d.voice.seek, sp);
    if seek < sp.Stop() {
      ArmedForTheRest(ParamStep(d, sp, seek), sp, sp.Stop() - seek);
    }
  }

  /**
   A paused sound that stands at 0, as every sound drawn from the pool does, is played from its sprite's offset to
   the end of its length: in the sprite's own milliseconds, with a timer for exactly that length at the sound's rate.
   */
  lemma PlayedFromTheTop(d: Deck, sp: Sprite)
    requires sp.Valid() && VoiceOk(d.voice, d.now) && d.voice.paused && d.voice.seek == 0.0 && d.entry == None
    ensures sp.length == 0.0 <==> PlayStep(d, sp).voice.paused
    ensures sp.length > 0.0 ==>
              var p := PlayStep(d, sp);
              && 1000.0 * Position(p.voice, p.now) == sp.offset
              && p.voice.start.Some? && 1000.0 * p.voice.start.value == sp.offset
              && p.voice.stop.Some? && 1000.0 * p.voice.stop.value == sp.offset + sp.length
              && p.entry.Some? && 1000.0 * (Abs(p.voice.rate) * (p.entry.value - p.now)) == sp.length
              && p.pending == d.pending + multiset{p.entry.value} && p.now == d.now && p.voice.rate == d.voice.rate
  {
    var length := sp.Stop() - sp.Start();
    assert 1000.0 * length == sp.length;
    if sp.length > 0.0 {
      QuotientTimes(length, Abs(d.voice.rate));
      var p := PlayStep(d, sp);
      assert p == StartStep(d, sp, sp.Start());
      assert Travel(0.0, p.voice.rate) == 0.0;
    }
  }

  /** One that stands further on is played from there, with a timer for what is left of the sprite. */
  lemma PlayedFromWhereItStands(d: Deck, sp: Sprite)
    requires sp.Valid() && VoiceOk(d.voice, d.now) && d.voice.paused && d.voice.seek > 0.0 && d.entry == None
    ensures 1000.0 * d.voice.seek >= sp.offset + sp.length <==> PlayStep(d, sp).voice.paused
    ensures 1000.0 * d.voice.seek < sp.offset + sp.length ==>
              var p := PlayStep(d, sp);
              && Position(p.voice, p.now) == d.voice.seek
              && p.voice.start.Some? && 1000.0 * p.voice.start.value == sp.offset
              && p.voice.stop.Some? && 1000.0 * p.voice.stop.value == sp.offset + sp.length
              && p.entry.Some?
              && 1000.0 * (d.voice.seek + Abs(p.voice.rate) * (p.entry.value - p.now)) == sp.offset + sp.length
  {
    var left := sp.Stop() - d.voice.seek;
    if left > 0.0 {
      QuotientTimes(left, Abs(d.voice.rate));
      var p := PlayStep(d, sp);
      assert p == StartStep(d, sp, d.voice.seek);
      assert Travel(0.0, p.voice.rate) == 0.0;
    }
  }

  /** The wait for a distance at one rate is the wait for it at another only if they are the same. */
  lemma SameWait(left: real, r: real, s: real)
    requires left > 0.0 && r > 0.0 && s > 0.0
    ensures left / r > 0.0
    ensures Travel(left / r, s) == left <==> r == s
  {
    var wait := left / r;
    assert r * wait == left && wait > 0.0;
    assert wait * s - r * wait == wait * (s - r);
  }

  lemma LateStartPaused(d: Deck, mine: Sprite, sp: Sprite, seek: real, wait: real)
    requires DeckOk(d, mine) && sp.Valid() && d.voice.paused && seek >= 0.0 && wait > 0.0
    ensures var after := LateStartStep(d, sp, seek, wait);
            DeckOk(after, mine) <==> Travel(wait, d.voice.rate) == sp.Stop() - seek
                                     && sp.Start() == mine.Start() && sp.Stop() == mine.Stop()
  {
    var after := LateStartStep(d, sp, seek, wait);
    assert after.entry == Some(d.now + wait) && after.pending == multiset{d.now + wait};
    assert Travel(0.0, d.voice.rate) == 0.0;
    assert Position(after.voice, d.now) == seek;
    assert VoiceOk(after.voice, d.now);
    assert after.entry.value - d.now == wait;
    assert Agrees(after, mine) <==> seek + Travel(wait, d.voice.rate) == mine.Stop();
    assert NotEarly(after, mine) <==> seek + Travel(wait, d.voice.rate) >= mine.Stop();
  }

  /**
   A late start keeps the timer discipline if and only if its sound is still paused, its rate is still what it was
   at the call, up to its sign, and its sprite still covers the same stretch. On a sound that plays it leaves two
   timeouts, of which only the new one is remembered.
   */
  lemma LateStartTimer(d: Deck, mine: Sprite, sp: Sprite, seek: real, rate: real)
    requires DeckOk(d, mine) && sp.Valid() && rate != 0.0 && 0.0 <= seek < sp.Stop()
    ensures var after := LateStartStep(d, sp, seek, TimeFor(sp.Stop() - seek, rate));
            && (DeckOk(after, mine) <==> d.voice.paused && Abs(rate) == Abs(d.voice.rate)
                                         && sp.Start() == mine.Start() && sp.Stop() == mine.Stop())
            && (!d.voice.paused ==> |after.pending| == 2)
  {
    var left := sp.Stop() - seek;
    if d.voice.paused {
      SameWait(left, Abs(rate), Abs(d.voice.rate));
      SameTravel(left / Abs(rate), d.voice.rate);
      LateStartPaused(d, mine, sp, seek, left / Abs(rate));
    } else {
      var after := LateStartStep(d, sp, seek, TimeFor(left, rate));
      assert |after.pending| == |d.pending| + 1 == 2;
    }
  }

  lemma SameTravel(dt: real, rate: real)
    ensures Travel(dt, rate) == Travel(dt, Abs(rate))
  {
  }

  /** A sound that is safe to play is safe to play again. */
  lemma PlayedIsSafe(d: Deck, sp: Sprite)
    requires !LoopsPastEnd(d, sp, Play)
    ensures !LoopsPastEnd(PlayStep(d, sp), sp, Play)
  {
  }

  lemma PausedDeck(d: Deck, sp: Sprite)
    requires DeckOk(d, sp)
    ensures DeckOk(PauseStep(d), sp) && PauseStep(d).voice.paused
    ensures PauseStep(d).entry == None && PauseStep(d).pending == multiset{}
  {
    PositionNonnegative(d.voice, d.now);
  }

  /** A rate change leaves the playhead where it is, even at 0, where `_rateSeek` reads as unset. */
  lemma RatePosition(d: Deck, rate: real)
    requires VoiceOk(d.voice, d.now) && !d.voice.paused
    ensures Position(d.voice.(rateSeek := Position(d.voice, d.now), playStart := d.now, rate := rate), d.now)
         == Position(d.voice, d.now)
  {
    var v := d.voice;
    if Position(v, d.now) == 0.0 {
      // the position is the sum of two nonnegative parts, so the base it started from was already 0
      assert (d.now - v.playStart) * Abs(v.rate) >= 0.0;
    }
  }

  lemma ElapseTimer(d: Deck, sp: Sprite, dt: real)
    requires DeckOk(d, sp) && dt >= 0.0
    ensures TimerOk(d.(now := d.now + dt), sp)
    ensures Agrees(d, sp) ==> Agrees(d.(now := d.now + dt), sp)
  {
    PositionMoves(d.voice, d.now, dt);
    if d.entry.Some? {
      assert Abs(d.voice.rate) * (d.entry.value - d.now)
          == Abs(d.voice.rate) * (d.entry.value - (d.now + dt)) + Abs(d.voice.rate) * dt;
    }
  }

  lemma RateTimer(d: Deck, sp: Sprite, rate: real)
    requires DeckOk(d, sp) && rate != 0.0 && !d.voice.paused
    ensures TimerOk(RateStep(d, sp, rate), sp)
    ensures Position(d.voice, d.now) <= sp.Stop() ==> Agrees(RateStep(d, sp, rate), sp)
  {
    var turned := d.(voice := d.voice.(rateSeek := Position(d.voice, d.now), playStart := d.now, rate := rate));
    ArmedForTheRest(ClearTimer(turned), sp, sp.Stop() - Position(turned.voice, d.now));
    RatePosition(d, rate);
  }

  lemma SeekTimer(d: Deck, sp: Sprite, position: real)
    requires DeckOk(d, sp) && !d.voice.paused && position >= 0.0
    ensures TimerOk(SeekStep(d, sp, position), sp) <==> !LoopsPastEnd(d, sp, SeekTo(position))
    ensures !LoopsPastEnd(d, sp, SeekTo(position)) ==> Agrees(SeekStep(d, sp, position), sp)
  {
    PausedDeck(d, sp);
    var held := PauseStep(d);
    PlayTimer(MoveStep(held, position), sp);
  }

  lemma LoopTimer(d: Deck, sp: Sprite)
    requires DeckOk(d, sp) && !d.voice.paused
    ensures TimerOk(LoopStep(d, sp, true), sp) <==> !LoopsPastEnd(d, sp, SetLoop(true))
    ensures !LoopsPastEnd(d, sp, SetLoop(true)) ==> Agrees(LoopStep(d, sp, true), sp)
  {
    var looped := d.(voice := d.voice.(loop := true));
    var held := PauseStep(looped);
    assert held.voice.seek == Position(d.voice, d.now);
    assert LoopStep(d, sp, true) == PlayStep(held, sp);
    PausedDeck(looped, sp);
    PlayTimer(held, sp);
  }

  lemma LoopedTimer(d: Deck, sp: Sprite)
    requires sp.Valid() && d.voice.rate != 0.0 && Loops(d.voice, sp) && !d.voice.paused && d.pending == multiset{}
    requires d.voice.start == Some(sp.Start()) && d.voice.stop == Some(sp.Stop())
    ensures TimerOk(EndedStep(d, sp), sp) && Agrees(EndedStep(d, sp), sp)
  {
    var again := d.(voice := d.voice.(seek := sp.Start(), rateSeek := 0.0, playStart := d.now));
    assert Position(again.voice, d.now) == sp.Start();
    ArmedForTheRest(again, sp, sp.Stop() - sp.Start());
  }

  lemma TimeoutTimer(d: Deck, sp: Sprite, deadline: real)
    requires DeckOk(d, sp) && deadline in d.pending
    ensures TimerOk(TimeoutStep(d, sp, deadline), sp) && Agrees(TimeoutStep(d, sp, deadline), sp)
  {
    var fired := d.(pending := d.pending - multiset{deadline});
    assert !d.voice.paused && fired.pending == multiset{};
    if Loops(d.voice, sp) {
      LoopedTimer(fired, sp);
    }
  }

  /** A paused sound without a timer keeps the discipline. */
  lemma SilentTimer(d: Deck, sp: Sprite)
    requires d.voice.paused && d.entry == None && d.pending == multiset{}
    ensures TimerOk(d, sp) && Agrees(d, sp)
  {
  }

  /** A step that starts nothing: the sound is not playing afterwards, or only its loop setting changed. */
  lemma QuietTimer(d: Deck, sp: Sprite, e: Event)
    requires DeckOk(d, sp) && Enabled(d, e)
    requires match e
             case Pause => true
             case Stop => true
             case SetRate(_) => d.voice.paused
             case SeekTo(position) => d.voice.paused || position < 0.0
             case SetLoop(on) => d.voice.paused || !on
             case _ => false
    ensures TimerOk(Step(d, sp, e), sp) && (Agrees(d, sp) ==> Agrees(Step(d, sp, e), sp))
  {
    match e {
      case Pause => PausedDeck(d, sp);
      case Stop => SilentTimer(RestStep(d), sp);
      case SetRate(rate) => SilentTimer(RateStep(d, sp, rate), sp);
      case SeekTo(position) =>
        if position >= 0.0 {
          SilentTimer(SeekStep(d, sp, position), sp);
        }
      case SetLoop(on) =>
        var after := LoopStep(d, sp, on);
        assert after == d.(voice := d.voice.(loop := on));
        assert Position(after.voice, d.now) == Position(d.voice, d.now);
      case _ =>
    }
  }

  /**
   Every step keeps the timer discipline, except exactly one: starting a looping sound at or past
   its sprite's end, which arms a timer under a sound that stays paused.
   */
  lemma TimerKept(d: Deck, sp: Sprite, e: Event)
    requires DeckOk(d, sp) && Enabled(d, e)
    ensures DeckOk(Step(d, sp, e), sp) <==> !LoopsPastEnd(d, sp, e)
    ensures Agrees(d, sp) && !LoopsPastEnd(d, sp, e) && !LateRateChange(d, sp, e) ==> Agrees(Step(d, sp, e), sp)
  {
    VoiceKept(d, sp, e);
    match e {
      case Elapse(dt) => ElapseTimer(d, sp, dt);
      case Play => if d.voice.paused { PlayTimer(d, sp); }
      case Pause => QuietTimer(d, sp, e);
      case Stop => QuietTimer(d, sp, e);
      case SetRate(rate) => if d.voice.paused { QuietTimer(d, sp, e); } else { RateTimer(d, sp, rate); }
      case SeekTo(position) =>
        if d.voice.paused || position < 0.0 { QuietTimer(d, sp, e); } else { SeekTimer(d, sp, position); }
      case SetLoop(on) => if d.voice.paused || !on { QuietTimer(d, sp, e); } else { LoopTimer(d, sp); }
      case Timeout(deadline) => TimeoutTimer(d, sp, deadline);
    }
  }
}
