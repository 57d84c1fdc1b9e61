/**
 A queue of plays on a loaded group, at one instant: each play that starts leaves a callback, and each
 callback steps the queue twice. `State` is what that depends on; this module proves, for any queue and
 any callbacks left over from before, when every queued sound gets to play.
 */
module PlayQueue {
  import opened Wrappers
  import opened Playhead

  /** What a play makes of a sound: nothing, a start, a return to its beginning, or nothing ever. */
  datatype Stage = Playing | Ready | AtEnd | Spent

  /** `stages` is by id; an id outside it is of no sound. */
  datatype State = State(stages: map<int, Stage>, queue: seq<int>, callbacks: nat)

  // ---------------------------------------------------------------- one sound

  /** A sound at its end is rewound when it is played; `Spent` ones would stand at their end again. */
  function StageOf(d: Deck, sp: Sprite): Stage {
    if !d.voice.paused then Playing
    else if PlayFrom(d.voice.seek, sp) < sp.Stop() then Ready
    else if PlayFrom(d.voice.start.GetOr(0.0), sp) < sp.Stop() then AtEnd
    else Spent
  }

  function Turn(s: Stage): Stage {
    match s
    case Playing => Playing
    case Ready => Playing
    case AtEnd => Ready
    case Spent => Spent
  }

  lemma PlayTurns(d: Deck, sp: Sprite)
    requires !LoopsPastEnd(d, sp, Play)
    ensures StageOf(PlayStep(d, sp), sp) == Turn(StageOf(d, sp))
  {
  }

  // ---------------------------------------------------------------- the queue

  predicate Plays(stages: map<int, Stage>, id: int) {
    id in stages && stages[id].Playing?
  }

  predicate AllPlay(stages: map<int, Stage>, ids: seq<int>) {
    forall k :: 0 <= k < |ids| ==> Plays(stages, ids[k])
  }

  /** The stages once this id has been played. */
  function Turned(stages: map<int, Stage>, id: int): map<int, Stage> {
    if id in stages then stages[id := Turn(stages[id])] else stages
  }

  /** The play of one id that does not play yet; it leaves a callback if it starts. */
  function Played(st: State, id: int): State {
    st.(stages := Turned(st.stages, id),
        callbacks := st.callbacks + if id in st.stages && st.stages[id].Ready? then 1 else 0)
  }

  /** `_loadQueue()`: plays whose sound already plays are dropped, the next one is run and stays. */
  function Next(st: State): (r: State)
    ensures |r.queue| <= |st.queue|
    decreases |st.queue|
  {
    if st.queue == [] then st
    else if Plays(st.stages, st.queue[0]) then Next(st.(queue := st.queue[1..]))
    else Played(st, st.queue[0])
  }

  /** How many plays at the head are dropped. */
  function Dropped(stages: map<int, Stage>, q: seq<int>): (n: nat)
    ensures n <= |q|
  {
    if q == [] || !Plays(stages, q[0]) then 0 else 1 + Dropped(stages, q[1..])
  }

  lemma {:induction false} NextDrops(st: State)
    ensures var q := st.queue[Dropped(st.stages, st.queue)..];
            && (q != [] ==> !Plays(st.stages, q[0]))
            && Next(st) == if q == [] then st.(queue := q) else Played(st.(queue := q), q[0])
    decreases |st.queue|
  {
    if st.queue != [] && Plays(st.stages, st.queue[0]) {
      var rest := st.queue[1..];
      NextDrops(st.(queue := rest));
      assert st.queue[Dropped(st.stages, st.queue)..] == rest[Dropped(st.stages, rest)..];
    }
  }

  function HeadTurned(stages: map<int, Stage>, q: seq<int>): map<int, Stage> {
    if q == [] then stages else Turned(stages, q[0])
  }

  /** Turning the head commutes with adding a sound, whose own stage turns if it is the head. */
  lemma TurnedWith(stages: map<int, Stage>, id: int, s: Stage, q: seq<int>)
    ensures HeadTurned(stages, q)[id := if q != [] && q[0] == id then Turn(s) else s] == HeadTurned(stages[id := s], q)
  {
  }

  /** ... seen from outside: what is dropped, which stage turns, and whether there is one more callback. */
  lemma NextIs(st: State, after: State)
    requires after.queue == st.queue[Dropped(st.stages, st.queue)..]
    requires after.stages == HeadTurned(st.stages, after.queue)
    requires after.callbacks == st.callbacks + if after.queue != [] && Plays(after.stages, after.queue[0]) then 1 else 0
    ensures after == Next(st)
  {
    NextDrops(st);
  }

  /** The 'play' event drops the first play, whoever emitted it, and the queue goes on. */
  function Emitted(st: State): State {
    if st.queue == [] then st else Next(st.(queue := st.queue[1..]))
  }

  /** The callback a start leaves: the event, and then `_loadQueue()` once more. */
  function Callback(st: State): State
    requires st.callbacks > 0
  {
    Next(Emitted(st.(callbacks := st.callbacks - 1)))
  }

  /** A callback shortens the queue or, when there is none, leaves one callback less. */
  lemma CallbackShrinks(st: State)
    requires st.callbacks > 0
    ensures st.queue != [] ==> |Callback(st).queue| < |st.queue|
    ensures st.queue == [] ==> Callback(st) == st.(callbacks := st.callbacks - 1)
  {
  }

  /** The callbacks run until none is left. */
  function Drained(st: State): State
    decreases |st.queue|, st.callbacks
  {
    if st.callbacks == 0 then st else Drained(Callback(st))
  }

  // ---------------------------------------------------------------- what never changes

  /** A sound that plays goes on playing, one that is missing or spent stays so, and one not queued stays as it is. */
  predicate Steady(a: State, b: State) {
    && a.stages.Keys == b.stages.Keys
    && (forall id :: id in a.stages && (a.stages[id].Playing? || a.stages[id].Spent? || id !in a.queue) ==>
          b.stages[id] == a.stages[id])
    && |b.queue| <= |a.queue| && (forall k :: 0 <= k < |b.queue| ==> b.queue[k] in a.queue)
  }

  lemma SteadyTwice(a: State, b: State, c: State)
    requires Steady(a, b) && Steady(b, c)
    ensures Steady(a, c)
  {
    forall k | 0 <= k < |c.queue|
      ensures c.queue[k] in a.queue
    {
      assert c.queue[k] in b.queue;
    }
    forall id | id in a.stages && (a.stages[id].Playing? || a.stages[id].Spent? || id !in a.queue)
      ensures c.stages[id] == a.stages[id]
    {
      assert b.stages[id] == a.stages[id];
    }
  }

  lemma {:induction false} NextSteady(st: State)
    ensures Steady(st, Next(st))
    decreases |st.queue|
  {
    if st.queue != [] && Plays(st.stages, st.queue[0]) {
      var rest := st.(queue := st.queue[1..]);
      NextSteady(rest);
      SteadyTwice(st, rest, Next(st));
    }
  }

  lemma CallbackSteady(st: State)
    requires st.callbacks > 0
    ensures Steady(st, Callback(st))
  {
    var fewer := st.(callbacks := st.callbacks - 1);
    var rest := if st.queue == [] then fewer else fewer.(queue := st.queue[1..]);
    NextSteady(rest);
    NextSteady(Emitted(fewer));
    assert Emitted(fewer) == if st.queue == [] then fewer else Next(rest);
    SteadyTwice(st, rest, Emitted(fewer));
    SteadyTwice(st, Emitted(fewer), Callback(st));
  }

  lemma {:induction false} DrainedSteady(st: State)
    ensures Steady(st, Drained(st))
    decreases |st.queue|, st.callbacks
  {
    if st.callbacks > 0 {
      CallbackSteady(st);
      DrainedSteady(Callback(st));
      SteadyTwice(st, Callback(st), Drained(st));
    }
  }

  // ---------------------------------------------------------------- when every queued sound gets to play

  /** The queue is about to be run once. A sound at its end is only rewound; if a callback is left it drops that play,
      and the sound depends on being queued again. */
  predicate OnceIsEnough(stages: map<int, Stage>, q: seq<int>, spare: bool)
    decreases |q|
  {
    q == [] ||
    (q[0] in stages &&
     match stages[q[0]]
     case Playing => OnceIsEnough(stages, q[1..], spare)
     case Ready => TwiceIsEnough(stages[q[0] := Playing], q[1..])
     case AtEnd => spare && q[0] in q[1..] && TwiceIsEnough(stages[q[0] := Ready], q[1..])
     case Spent => false)
  }

  /** The queue is about to be run twice: a sound at its end is rewound and then started. */
  predicate TwiceIsEnough(stages: map<int, Stage>, q: seq<int>)
    decreases |q|
  {
    q == [] ||
    (q[0] in stages &&
     match stages[q[0]]
     case Playing => TwiceIsEnough(stages, q[1..])
     case Ready => OnceIsEnough(stages[q[0] := Playing], q[1..], true)
     case AtEnd => TwiceIsEnough(stages[q[0] := Playing], q[1..])
     case Spent => false)
  }

  lemma FirstAndRest(stages: map<int, Stage>, q: seq<int>)
    requires q != []
    ensures AllPlay(stages, q) <==> Plays(stages, q[0]) && AllPlay(stages, q[1..])
  {
    if Plays(stages, q[0]) && AllPlay(stages, q[1..]) {
      forall k | 0 <= k < |q|
        ensures Plays(stages, q[k])
      {
        assert k > 0 ==> q[k] == q[1..][k - 1];
      }
    }
    if AllPlay(stages, q) {
      forall k | 0 <= k < |q[1..]|
        ensures Plays(stages, q[1..][k])
      {
        assert q[1..][k] == q[k + 1];
      }
    }
  }

  /** A callback on a queue whose first play has been run once drops it and runs the rest twice. */
  lemma CallbackRunsTwice(st: State)
    requires st.queue != [] && st.callbacks > 0
    ensures Callback(st) == Next(Next(st.(queue := st.queue[1..], callbacks := st.callbacks - 1)))
  {
  }

  /** One run of the queue, and then all callbacks: every queued sound plays if and only if one run is enough. */
  lemma {:induction false} EveryPlayStarts(st: State)
    ensures var r := Drained(Next(st));
            && (AllPlay(r.stages, st.queue) <==> OnceIsEnough(st.stages, st.queue, st.callbacks > 0))
            && (AllPlay(r.stages, st.queue) ==> r.queue == [])
    decreases |st.queue|
  {
    var ran := Next(st);
    var r := Drained(ran);
    DrainedSteady(ran);
    NextSteady(st);
    SteadyTwice(st, ran, r);
    if st.queue == [] {
      return;
    }
    var id, rest := st.queue[0], st.(queue := st.queue[1..]);
    FirstAndRest(r.stages, st.queue);
    if Plays(st.stages, id) {
      EveryPlayStarts(rest);
    } else if id in st.stages && !st.stages[id].Spent? && ran.callbacks > 0 {
      CallbackRunsTwice(ran);
      var dropped := ran.(queue := st.queue[1..], callbacks := ran.callbacks - 1);
      EveryPlayStartsTwice(dropped);
      NextSteady(dropped);
      NextSteady(Next(dropped));
      DrainedSteady(Next(Next(dropped)));
      SteadyTwice(dropped, Next(dropped), Next(Next(dropped)));
      SteadyTwice(dropped, Next(Next(dropped)), r);
      if id in st.queue[1..] {
        var k :| 0 <= k < |st.queue[1..]| && st.queue[1..][k] == id;
      }
    }
  }

  /** ... the same for two runs of the queue. */
  lemma {:induction false} EveryPlayStartsTwice(st: State)
    ensures var r := Drained(Next(Next(st)));
            && (AllPlay(r.stages, st.queue) <==> TwiceIsEnough(st.stages, st.queue))
            && (AllPlay(r.stages, st.queue) ==> r.queue == [])
    decreases |st.queue|
  {
    var once := Next(st);
    var ran := Next(once);
    var r := Drained(ran);
    DrainedSteady(ran);
    NextSteady(once);
    NextSteady(st);
    SteadyTwice(once, ran, r);
    SteadyTwice(st, once, r);
    if st.queue == [] {
      return;
    }
    var id, rest := st.queue[0], st.(queue := st.queue[1..]);
    FirstAndRest(r.stages, st.queue);
    if Plays(st.stages, id) {
      EveryPlayStartsTwice(rest);
    } else if id in st.stages && st.stages[id].Ready? {
      assert ran == Next(once.(queue := st.queue[1..]));
      EveryPlayStarts(once.(queue := st.queue[1..]));
    } else if id in st.stages && st.stages[id].AtEnd? {
      CallbackRunsTwice(ran);
      var dropped := ran.(queue := st.queue[1..], callbacks := ran.callbacks - 1);
      assert dropped.stages == st.stages[id := Playing];
      EveryPlayStartsTwice(dropped);
    }
  }

  /** Sounds that exist and stand before their ends, or play, all get to play. */
  lemma {:induction false} ReadyIsEnough(stages: map<int, Stage>, q: seq<int>, spare: bool)
    requires forall k :: 0 <= k < |q| ==> q[k] in stages && (stages[q[k]].Ready? || stages[q[k]].Playing?)
    ensures OnceIsEnough(stages, q, spare) && TwiceIsEnough(stages, q)
    decreases |q|
  {
    if q != [] {
      var after := stages[q[0] := Playing];
      forall k | 0 <= k < |q[1..]|
        ensures q[1..][k] in stages && (stages[q[1..][k]].Ready? || stages[q[1..][k]].Playing?)
      {
        assert q[1..][k] == q[k + 1];
      }
      ReadyIsEnough(stages, q[1..], spare);
      ReadyIsEnough(after, q[1..], true);
    }
  }

  /** A play of a missing sound, or of one that can only stand at its end, keeps a queue from playing everything. */
  lemma MissingNeverPlays(st: State, id: int)
    requires id in st.queue && (id !in st.stages || st.stages[id].Spent?)
    ensures !OnceIsEnough(st.stages, st.queue, st.callbacks > 0)
  {
    var r := Drained(Next(st));
    EveryPlayStarts(st);
    NextSteady(st);
    DrainedSteady(Next(st));
    SteadyTwice(st, Next(st), r);
    var k :| 0 <= k < |st.queue| && st.queue[k] == id;
    assert !Plays(r.stages, st.queue[k]);
  }

  /**
   Why standing before the end is not the condition: a sound queued at its end gets to play behind one that
   starts, because the callback runs it twice, and does not when it comes first.
   */
  lemma EndedSoundStarts(a: int, b: int)
    requires a != b
    ensures var stages := map[a := Ready, b := AtEnd];
            && AllPlay(Drained(Next(State(stages, [a, b], 0))).stages, [a, b])
            && !AllPlay(Drained(Next(State(stages, [b, a], 0))).stages, [b, a])
  {
    var stages := map[a := Ready, b := AtEnd];
    assert [a, b][1..] == [b] && [b][1..] == [];
    assert TwiceIsEnough(stages[a := Playing], [b]);
    EveryPlayStarts(State(stages, [a, b], 0));
    EveryPlayStarts(State(stages, [b, a], 0));
  }
}
