/**
 The fade loop: an interval that moves a volume toward a target in proportion to the time since its
 last tick, rounds it to two decimals with ties toward +infinity, and stops once the target is met.

 `Ramp` is what the interval's closure captures. Volumes and times are exact reals.
 */
module Fade {
  import opened Wrappers

  datatype Ramp = Ramp(from: real, to: real, len: real, vol: real)

  function Min(x: real, y: real): real {
    if x < y then x else y
  }

  /** `Math.round`: to the nearest integer, ties toward +infinity. */
  function Round(x: real): int {
    (x + 0.5).Floor
  }

  function Ceil(x: real): int {
    -((-x).Floor)
  }

  /** Into [0, 1]. */
  function Clamp(x: real): (r: real)
    ensures 0.0 <= r <= 1.0 && (0.0 <= x <= 1.0 ==> r == x) && (x < 0.0 ==> r == 0.0) && (x > 1.0 ==> r == 1.0)
  {
    Min(Max(0.0, x), 1.0)
  }

  /** The interval between ticks: one hundredth of volume a tick, but never below four milliseconds. */
  function StepLen(from: real, to: real, len: real): (r: real)
    ensures r >= 4.0 && (from == to ==> r == Max(4.0, len))
    ensures from != to ==> r == 4.0 || r * (100.0 * Abs(to - from)) == len
    ensures from != to && 4.0 * (100.0 * Abs(to - from)) <= len ==> r * (100.0 * Abs(to - from)) == len
  {
    var steps := Abs((to - from) / 0.01);
    Max(4.0, if steps > 0.0 then len / steps else len)
  }

  /** The volume, in hundredths, that a tick asks for before it is rounded. */
  function Wanted(r: Ramp, gap: real): real
    requires r.len > 0.0
  {
    (r.vol + (r.to - r.from) * (gap / r.len)) * 100.0
  }

  /** Rounded to a hundredth, and not past the target. */
  function Landed(r: Ramp, wanted: real): real {
    var rounded := Round(wanted) as real / 100.0;
    if r.to < r.from then Max(r.to, rounded) else Min(r.to, rounded)
  }

  /** One tick, `gap` milliseconds after the last. */
  function Advance(r: Ramp, gap: real): Ramp
    requires r.len > 0.0
  {
    r.(vol := Landed(r, Wanted(r, gap)))
  }

  /** The test that ends the interval. */
  predicate Complete(r: Ramp) {
    (r.to < r.from && r.vol <= r.to) || (r.to > r.from && r.vol >= r.to)
  }

  function Start(from: real, to: real, len: real): Ramp {
    Ramp(from, to, len, from)
  }

  /** The interval ticks until it is complete, then is gone. */
  function Run(r: Ramp, gaps: seq<real>): Ramp
    requires r.len > 0.0
    decreases |gaps|
  {
    if gaps == [] || Complete(r) then r else Run(Advance(r, gaps[0]), gaps[1..])
  }

  // ---------------------------------------------------------------- bounds and monotonicity

  /** A fade under way: both ends in [0, 1] and the volume between them, on the way from `from` to `to`. */
  predicate Underway(r: Ramp) {
    && r.len > 0.0
    && 0.0 <= r.from <= 1.0 && 0.0 <= r.to <= 1.0 && 0.0 <= r.vol <= 1.0
    && (if r.to < r.from then r.to <= r.vol else r.vol <= r.to)
  }

  /** The volume is a whole number of hundredths, or the target. */
  predicate OnGrid(r: Ramp) {
    r.vol == r.to || (r.vol * 100.0).Floor as real == r.vol * 100.0
  }

  predicate Toward(before: Ramp, after: Ramp) {
    if before.to < before.from then after.vol <= before.vol else before.vol <= after.vol
  }

  lemma RoundWithin(x: real, lo: int, hi: int)
    ensures lo as real <= x ==> lo <= Round(x)
    ensures x <= hi as real ==> Round(x) <= hi
  {
  }

  lemma Quotient(x: real, y: real)
    requires x >= 0.0 && y > 0.0
    ensures x / y >= 0.0
  {
  }

  lemma Product(x: real, y: real)
    requires x >= 0.0 && y >= 0.0
    ensures x * y >= 0.0
  {
  }

  lemma Unrounded(r: Ramp, gap: real, pull: real)
    requires r.len > 0.0 && pull == (r.to - r.from) * (gap / r.len)
    ensures Wanted(r, gap) == r.vol * 100.0 + pull * 100.0
  {
  }

  lemma Negate(x: real, y: real)
    ensures (-x) * y == -(x * y)
  {
  }

  /** The target pulls toward itself, never away. */
  lemma Pull(r: Ramp, gap: real)
    requires r.len > 0.0 && gap >= 0.0
    ensures r.to >= r.from ==> Wanted(r, gap) >= r.vol * 100.0
    ensures r.to <= r.from ==> Wanted(r, gap) <= r.vol * 100.0
  {
    var diff, share := r.to - r.from, gap / r.len;
    Quotient(gap, r.len);
    Unrounded(r, gap, diff * share);
    if diff >= 0.0 {
      Product(diff, share);
    }
    if diff <= 0.0 {
      Product(-diff, share);
      Negate(diff, share);
    }
  }

  lemma LandedInBounds(r: Ramp, wanted: real)
    requires Underway(r)
    requires if r.to < r.from then wanted <= r.vol * 100.0 else wanted >= r.vol * 100.0
    ensures Underway(r.(vol := Landed(r, wanted))) && OnGrid(r.(vol := Landed(r, wanted)))
    ensures r.from != r.to && OnGrid(r) && !Complete(r) ==> Toward(r, r.(vol := Landed(r, wanted)))
  {
    var rounded := Round(wanted);
    RoundWithin(wanted, 0, 100);
    assert Landed(r, wanted) == r.to || Landed(r, wanted) == rounded as real / 100.0;
    assert Landed(r, wanted) * 100.0 == r.to * 100.0 || Landed(r, wanted) * 100.0 == rounded as real;
    if r.from != r.to && OnGrid(r) && !Complete(r) {
      var k := (r.vol * 100.0).Floor;
      RoundWithin(wanted, k, k);
    }
  }

  /** Whatever the gaps, a tick stays in [0, 1] and does not pass the target; from the grid it does not turn back. */
  lemma TickInBounds(r: Ramp, gap: real)
    requires Underway(r) && gap >= 0.0
    ensures Underway(Advance(r, gap)) && OnGrid(Advance(r, gap))
    ensures r.from != r.to && OnGrid(r) && !Complete(r) ==> Toward(r, Advance(r, gap))
  {
    Pull(r, gap);
    LandedInBounds(r, Wanted(r, gap));
  }

  /** Every state the fade passes through. */
  function States(r: Ramp, gaps: seq<real>): (states: seq<Ramp>)
    requires r.len > 0.0
    ensures |states| >= 1 && states[0] == r && states[|states| - 1] == Run(r, gaps)
    decreases |gaps|
  {
    if gaps == [] || Complete(r) then [r] else [r] + States(Advance(r, gaps[0]), gaps[1..])
  }

  /** A tick that is not pulled anywhere leaves the volume as it is. */
  predicate Settled(r: Ramp) {
    Landed(r, r.vol * 100.0) == r.vol
  }

  lemma LandsOnce(r: Ramp)
    requires r.from == r.to && r.vol <= r.to
    ensures Settled(r.(vol := Landed(r, r.vol * 100.0)))
  {
    var k, m := Round(r.vol * 100.0), Round(r.to * 100.0);
    RoundWithin(k as real, k, k);
    RoundWithin(r.to * 100.0, k, k);
    var landed := Landed(r, r.vol * 100.0);
    if k as real / 100.0 < r.to {
      assert landed == k as real / 100.0 && landed * 100.0 == k as real;
    } else {
      assert landed == r.to && k <= m;
    }
  }

  /** A fade from a volume to itself settles with its first tick. */
  lemma StillTick(r: Ramp, gap: real)
    requires Underway(r) && r.from == r.to && gap >= 0.0
    ensures Settled(Advance(r, gap)) && (Settled(r) ==> Advance(r, gap) == r)
  {
    Pull(r, gap);
    var wanted := Wanted(r, gap);
    assert Advance(r, gap) == r.(vol := Landed(r, wanted));
    SameLanding(r, wanted);
    LandsOnce(r);
  }

  lemma SameLanding(r: Ramp, wanted: real)
    requires wanted == r.vol * 100.0
    ensures Landed(r, wanted) == Landed(r, r.vol * 100.0)
  {
  }

  /** Consecutive states from i on: the volume moves only toward the target. */
  ghost predicate Steady(states: seq<Ramp>, i: nat) {
    forall j :: i <= j < |states| - 1 ==> Toward(states[j], states[j + 1])
  }

  lemma {:induction false} SteadyOnGrid(r: Ramp, gaps: seq<real>)
    requires Underway(r) && (if r.from == r.to then Settled(r) else OnGrid(r)) && forall g :: g in gaps ==> g >= 0.0
    ensures forall s :: s in States(r, gaps) ==> Underway(s)
    ensures Steady(States(r, gaps), 0)
    decreases |gaps|
  {
    if gaps != [] && !Complete(r) {
      assert gaps[0] in gaps && forall g :: g in gaps[1..] ==> g in gaps;
      TickInBounds(r, gaps[0]);
      if r.from == r.to {
        StillTick(r, gaps[0]);
      }
      SteadyOnGrid(Advance(r, gaps[0]), gaps[1..]);
    }
  }

  /**
   In bounds throughout, never past the target, and after the first tick the volume moves only toward
   it. (The first tick may step back: it rounds a start that need not be a whole hundredth.)
   */
  lemma FadeInBounds(from: real, to: real, len: real, gaps: seq<real>)
    requires 0.0 <= from <= 1.0 && 0.0 <= to <= 1.0 && len > 0.0 && forall g :: g in gaps ==> g >= 0.0
    ensures forall s :: s in States(Start(from, to, len), gaps) ==> Underway(s)
    ensures Steady(States(Start(from, to, len), gaps), 1)
  {
    var r := Start(from, to, len);
    if gaps != [] && !Complete(r) {
      assert gaps[0] in gaps && forall g :: g in gaps[1..] ==> g in gaps;
      TickInBounds(r, gaps[0]);
      if from == to {
        StillTick(r, gaps[0]);
      }
      SteadyOnGrid(Advance(r, gaps[0]), gaps[1..]);
      assert forall j :: 1 <= j < |States(r, gaps)| ==>
                           States(r, gaps)[j] == States(Advance(r, gaps[0]), gaps[1..])[j - 1];
    }
  }

  // ---------------------------------------------------------------- termination

  /** The ticks a fade needs at most: the hundredths between its ends, counted outward. */
  function TickBound(from: real, to: real): int {
    Ceil(100.0 * Max(from, to)) - (100.0 * Min(from, to)).Floor
  }

  lemma AtMostHundredTicks(from: real, to: real)
    requires 0.0 <= from <= 1.0 && 0.0 <= to <= 1.0
    ensures 0 <= TickBound(from, to) <= 100
  {
  }

  /** The hundredths still to go. */
  function Remaining(r: Ramp): int {
    TickBound(r.vol, r.to)
  }

  /** A gap of more than half a step moves the wanted volume by more than half a hundredth. */
  lemma LongEnough(r: Ramp, gap: real)
    requires r.len > 0.0 && r.from != r.to && gap > StepLen(r.from, r.to, r.len) / 2.0
    ensures r.to > r.from ==> Wanted(r, gap) > r.vol * 100.0 + 0.5
    ensures r.to < r.from ==> Wanted(r, gap) < r.vol * 100.0 - 0.5
  {
    var diff, share := r.to - r.from, gap / r.len;
    var steps := Abs(diff) * 100.0;
    assert Abs(diff / 0.01) == steps;
    HalfStep(steps, share, gap, r.len);
    PullOf(diff, steps, share, steps * share, diff * share);
    Unrounded(r, gap, diff * share);
  }

  lemma PullOf(diff: real, steps: real, share: real, hundredths: real, pull: real)
    requires steps == Abs(diff) * 100.0 && hundredths == steps * share && pull == diff * share
    requires hundredths > 0.5
    ensures diff > 0.0 ==> pull * 100.0 > 0.5
    ensures diff < 0.0 ==> pull * 100.0 < -0.5
  {
    if diff < 0.0 {
      Negate(diff, share);
      Scale(-diff, steps, share, hundredths, -pull);
    } else {
      Scale(diff, steps, share, hundredths, pull);
    }
  }

  lemma Scale(x: real, steps: real, share: real, hundredths: real, product: real)
    requires steps == x * 100.0 && hundredths == steps * share && product == x * share
    ensures hundredths == product * 100.0
  {
  }

  lemma HalfStep(steps: real, share: real, gap: real, len: real)
    requires steps > 0.0 && len > 0.0 && share == gap / len && gap > len / steps / 2.0
    ensures steps * share > 0.5
  {
    var q := len / steps;
    Positive(gap * 2.0 - q, steps);
    assert (gap * 2.0 - q) * steps == gap * steps * 2.0 - q * steps;
    assert gap * steps * 2.0 > len;
    Associate(steps, share, len);
    assert steps * share * len == steps * gap;
    if steps * share <= 0.5 {
      Product(0.5 - steps * share, len);
      assert false;
    }
  }

  lemma Associate(x: real, y: real, z: real)
    ensures x * y * z == x * (y * z)
  {
  }

  lemma Positive(x: real, y: real)
    requires x > 0.0 && y > 0.0
    ensures x * y > 0.0
  {
  }

  /** Each such tick gains at least one hundredth, or arrives. */
  lemma TickGains(r: Ramp, gap: real)
    requires Underway(r) && r.from != r.to && gap > StepLen(r.from, r.to, r.len) / 2.0
    ensures Complete(Advance(r, gap)) || Remaining(Advance(r, gap)) < Remaining(r)
  {
    LongEnough(r, gap);
    var wanted := Wanted(r, gap);
    var rounded := Round(wanted);
    var after := Advance(r, gap);
    if !Complete(after) {
      assert after.vol * 100.0 == rounded as real;
      if r.to > r.from {
        assert rounded >= (r.vol * 100.0).Floor + 1;
      } else {
        assert rounded <= Ceil(r.vol * 100.0) - 1;
      }
    }
  }

  lemma {:induction false} FadeArrives(r: Ramp, gaps: seq<real>)
    requires Underway(r) && r.from != r.to
    requires forall g :: g in gaps ==> g > StepLen(r.from, r.to, r.len) / 2.0
    requires |gaps| >= Remaining(r)
    ensures Complete(Run(r, gaps)) && Run(r, gaps).vol == r.to && Underway(Run(r, gaps))
    decreases |gaps|
  {
    if !Complete(r) {
      assert Remaining(r) >= 1;
      assert gaps[0] in gaps && (forall g :: g in gaps[1..] ==> g in gaps) && StepLen(r.from, r.to, r.len) >= 0.0;
      TickGains(r, gaps[0]);
      TickInBounds(r, gaps[0]);
      var next := Advance(r, gaps[0]);
      if Complete(next) {
        assert Run(next, gaps[1..]) == next;
      } else {
        FadeArrives(next, gaps[1..]);
      }
    }
  }

  /** A fade between two different volumes ends, exactly on its target, within 100 ticks. */
  lemma FadeTerminates(from: real, to: real, len: real, gaps: seq<real>)
    requires 0.0 <= from <= 1.0 && 0.0 <= to <= 1.0 && from != to && len > 0.0
    requires forall g :: g in gaps ==> g > StepLen(from, to, len) / 2.0
    requires |gaps| >= TickBound(from, to)
    ensures var end := Run(Start(from, to, len), gaps);
            Complete(end) && end.vol == to && TickBound(from, to) <= 100
  {
    AtMostHundredTicks(from, to);
    FadeArrives(Start(from, to, len), gaps);
  }

  lemma {:induction false} NeverComplete(r: Ramp, gaps: seq<real>)
    requires r.len > 0.0 && r.from == r.to
    ensures !Complete(Run(r, gaps))
    decreases |gaps|
  {
    if gaps != [] {
      NeverComplete(Advance(r, gaps[0]), gaps[1..]);
    }
  }

  /** A fade can end if and only if its two volumes differ: from a volume to itself it ticks forever. */
  lemma FadeCanEnd(from: real, to: real, len: real)
    requires 0.0 <= from <= 1.0 && 0.0 <= to <= 1.0 && len > 0.0
    ensures (exists gaps :: Complete(Run(Start(from, to, len), gaps))) <==> from != to
  {
    if from == to {
      forall gaps
        ensures !Complete(Run(Start(from, to, len), gaps))
      {
        NeverComplete(Start(from, to, len), gaps);
      }
    } else {
      var gap := StepLen(from, to, len);
      var gaps := seq(100, i => gap);
      FadeTerminates(from, to, len, gaps);
    }
  }

  /**
   How short a gap stalls the fade. On a whole hundredth short of the target, a tick leaves the volume
   where it is exactly when the pull rounds away, and rounding favours louder: half a hundredth is
   enough going up and not enough going down.
   */
  lemma TickStalls(r: Ramp, gap: real, k: int)
    requires Underway(r) && gap >= 0.0 && r.from != r.to && !Complete(r) && r.vol == k as real / 100.0
    ensures var pull := Abs(Wanted(r, gap) - r.vol * 100.0);
            Advance(r, gap).vol == r.vol <==> if r.to > r.from then pull < 0.5 else pull <= 0.5
  {
    Pull(r, gap);
    var wanted := Wanted(r, gap);
    assert r.vol * 100.0 == k as real;
    if r.to > r.from {
      assert Round(wanted) == k <==> wanted - k as real < 0.5;
    } else {
      assert Round(wanted) == k <==> k as real - wanted <= 0.5;
    }
  }

  // ---------------------------------------------------------------- the sound that fades

  datatype Notice = VolumeSet | Faded

  /** The running interval: its ramp, the time of its last tick, and whether it drives the group's volume too. */
  datatype Interval = Interval(ramp: Ramp, lastTick: real, isGroup: bool)

  /** One sound of a loaded, unlocked Web Audio group, as far as its volume goes. */
  class Fader {
    var volume: real
    var groupVolume: real
    var muted: bool
    var interval: Option<Interval>
    var fadeTo: real
    var emitted: seq<Notice>

    ghost predicate Valid()
      reads this
    {
      && 0.0 <= volume <= 1.0
      && (interval.Some? ==>
            && Underway(interval.value.ramp) && !Complete(interval.value.ramp)
            && interval.value.ramp.to == fadeTo)
    }

    constructor (volume: real)
      requires 0.0 <= volume <= 1.0
      ensures Valid() && this.volume == volume && interval == None && emitted == []
    {
      this.volume, groupVolume := volume, volume;
      muted := false;
      interval := None;
      fadeTo := 0.0;
      emitted := [];
    }

    /**
     `volume(v, id)`: set it, then stop a running fade, which sets it again. So the new volume sticks if
     and only if no fade is running, or it is the fade's own target. Out of [0, 1] it only reads.
     */
    method SetVolume(v: real)
      requires Valid()
      modifies this
      ensures Valid() && muted == old(muted) && groupVolume == old(groupVolume)
      ensures v < 0.0 || v > 1.0 ==> unchanged(this)
      ensures 0.0 <= v <= 1.0 ==>
                && interval == None
                && volume == (if old(interval) == None then v else old(fadeTo))
                && (volume == v <==> old(interval == None || fadeTo == v))
                && emitted == old(emitted)
                              + if old(interval) == None then [VolumeSet] else [VolumeSet, Faded, VolumeSet]
      decreases if interval.Some? then 2 else 0
    {
      if 0.0 <= v <= 1.0 {
        volume := v;
        StopFade();
        emitted := emitted + [VolumeSet];
      }
    }

    /** `_stopFade`: a running fade ends at its target. */
    method StopFade()
      requires Valid()
      modifies this
      ensures Valid() && interval == None && muted == old(muted) && groupVolume == old(groupVolume)
      ensures volume == if old(interval) == None then old(volume) else old(fadeTo)
      ensures emitted == old(emitted) + (if old(interval) == None then [] else [VolumeSet, Faded])
      decreases if interval.Some? then 1 else -1
    {
      if interval.Some? {
        interval := None;
        SetVolume(fadeTo);
        emitted := emitted + [Faded];
      }
    }

    /** `fade(from, to, len, id)` at time now; the previous fade is stopped by setting the volume. */
    method Fade(from: real, to: real, len: real, isGroup: bool, now: real)
      requires Valid() && len > 0.0
      modifies this
      ensures interval == Some(Interval(Start(Clamp(from), Clamp(to), len), now, isGroup)) && fadeTo == Clamp(to)
      ensures Valid()
      ensures volume == if muted && old(interval).Some? then old(fadeTo) else Clamp(from)
      ensures muted == old(muted) && groupVolume == if isGroup then Clamp(from) else old(groupVolume)
    {
      var source, target := Clamp(from), Clamp(to);
      SetVolume(source);
      if !muted {
        volume := source;
      }
      if isGroup {
        groupVolume := source;
      }
      fadeTo := target;
      interval := Some(Interval(Start(source, target, len), now, isGroup));
    }

    /** One tick of the interval at time now. */
    method Tick(now: real)
      requires Valid() && interval.Some? && now >= interval.value.lastTick
      modifies this
      ensures Valid() && muted == old(muted)
      ensures var was := old(interval.value);
              var next := Advance(was.ramp, now - was.lastTick);
              && volume == next.vol
              && groupVolume == (if was.isGroup then next.vol else old(groupVolume))
              && interval == (if Complete(next) then None else Some(Interval(next, now, was.isGroup)))
              && (Complete(next) ==> volume == old(fadeTo))
              && emitted == old(emitted) + if Complete(next) then [VolumeSet, Faded] else []
    {
      var current := interval.value;
      var next := Advance(current.ramp, now - current.lastTick);
      TickInBounds(current.ramp, now - current.lastTick);
      interval := Some(Interval(next, now, current.isGroup));
      volume := next.vol;
      if current.isGroup {
        groupVolume := next.vol;
      }
      if (next.to < next.from && next.vol <= next.to) || (next.to > next.from && next.vol >= next.to) {
        interval := None;
        SetVolume(next.to);
        emitted := emitted + [Faded];
      }
    }
  }
}
