/**
 Calls made before a group has loaded are queued, and the queue is stepped by the very events the
 calls emit: finishing one call's event starts the next call, from inside the first. This module
 models that recursion for the calls that complete at once (volume, mute, rate, seek, pause, stop),
 and proves when it amounts to making the calls directly.
 */
module Tasks {
  import opened Wrappers
  import opened Playhead
  import PlayheadRuns

  datatype Sound = Sound(id: int, deck: Deck, sprite: Sprite, volume: real, muted: bool)

  datatype Op =
    | SetVolume(volume: real)
    | SetMute(muted: bool)
    | ChangeRate(rate: real)
    | MoveTo(position: real)
    | Hold
    | Halt

  /** A call and the sound it names, if it names one. */
  datatype Task = Task(op: Op, id: Option<int>)

  /** The values a group hands to its new sounds. */
  datatype Settings = Settings(volume: real, muted: bool, rate: real)

  /** A call in progress: the how-manieth it is, and what it does. */
  datatype Turn = Turn(call: nat, op: Op)

  /** One id of one call dealt with. */
  datatype Effect = Effect(call: nat, id: int)

  /** A group as far as these calls go. `log` records the calls begun, in order, and `effects` what each of them
      went on to do, sound by sound, in the order it happened. */
  datatype Group = Group(loaded: bool, locked: bool, sounds: seq<Sound>, own: Settings, queue: seq<Task>,
                         log: seq<Task>, effects: seq<Effect>)

  // ---------------------------------------------------------------- what a call does

  function Affect(s: Sound, op: Op): Sound {
    match op
    case SetVolume(v) => s.(volume := v)
    case SetMute(m) => s.(muted := m)
    case ChangeRate(r) => s.(deck := RateStep(s.deck, s.sprite, r))
    case MoveTo(x) => s.(deck := SeekStep(s.deck, s.sprite, x))
    case Hold => s.(deck := PauseStep(s.deck))
    case Halt => s.(deck := RestStep(s.deck))
  }

  /** `_soundById` and the effect on what it finds. */
  function Update(sounds: seq<Sound>, id: int, op: Op): (r: seq<Sound>)
    ensures |r| == |sounds| && forall i :: 0 <= i < |r| ==> r[i].id == sounds[i].id
  {
    if sounds == [] then []
    else if sounds[0].id == id then [Affect(sounds[0], op)] + sounds[1..]
    else [sounds[0]] + Update(sounds[1..], id, op)
  }

  predicate Exists(sounds: seq<Sound>, id: int) {
    exists i :: 0 <= i < |sounds| && sounds[i].id == id
  }

  function PoolIds(sounds: seq<Sound>): (ids: seq<int>)
    ensures |ids| == |sounds| && forall i :: 0 <= i < |ids| ==> ids[i] == sounds[i].id
  {
    seq(|sounds|, i requires 0 <= i < |sounds| => sounds[i].id)
  }

  /** The ids a call works through: the one named; without one, the first sound's for a seek and all otherwise. */
  function Ids(sounds: seq<Sound>, t: Task): seq<int> {
    match t.id
    case Some(id) => [id]
    case None => if t.op.MoveTo? && sounds != [] then [sounds[0].id] else PoolIds(sounds)
  }

  /** Without an id, volume, mute and rate also set the group's own value. */
  function Owned(own: Settings, t: Task): Settings {
    if t.id.Some? then own
    else
      match t.op
      case SetVolume(v) => own.(volume := v)
      case SetMute(m) => own.(muted := m)
      case ChangeRate(r) => own.(rate := r)
      case _ => own
  }

  /** A call begins. */
  function Begun(h: Group, t: Task): Group {
    h.(log := h.log + [t], own := Owned(h.own, t))
  }

  function TurnOf(h: Group, t: Task): Turn {
    Turn(|h.log|, t.op)
  }

  /** One id of a call. */
  function One(h: Group, turn: Turn, id: int): Group {
    h.(sounds := Update(h.sounds, id, turn.op), effects := h.effects + [Effect(turn.call, id)])
  }

  /** Whether the call emits its event for this id: a pause does even without such a sound, a negative seek never. */
  predicate Emits(sounds: seq<Sound>, op: Op, id: int) {
    (op.Hold? || Exists(sounds, id)) && (op.MoveTo? ==> op.position >= 0.0)
  }

  predicate SameEvent(a: Op, b: Op) {
    match a
    case SetVolume(_) => b.SetVolume?
    case SetMute(_) => b.SetMute?
    case ChangeRate(_) => b.ChangeRate?
    case MoveTo(_) => b.MoveTo?
    case Hold => b.Hold?
    case Halt => b.Halt?
  }

  // ---------------------------------------------------------------- calls, events and the queue

  /** Carry a call out. */
  function Act(h: Group, t: Task): (r: Group)
    ensures |r.queue| <= |h.queue|
    decreases |h.queue|, 2, 0
  {
    ActOn(Begun(h, t), TurnOf(h, t), Ids(h.sounds, t))
  }

  /** ... id by id, emitting its event after each. */
  function ActOn(h: Group, turn: Turn, ids: seq<int>): (r: Group)
    ensures |r.queue| <= |h.queue|
    decreases |h.queue|, 1, |ids|
  {
    if ids == [] then h
    else
      var affected := One(h, turn, ids[0]);
      var emitted := if Emits(h.sounds, turn.op, ids[0]) then Emitted(affected, turn.op) else affected;
      ActOn(emitted, turn, ids[1..])
  }

  /** `_emit`, as the queue sees it: `_loadQueue(event)` drops a first task of this kind and runs the next. */
  function Emitted(h: Group, op: Op): (r: Group)
    ensures |r.queue| <= |h.queue|
    decreases |h.queue|, 0, 0
  {
    if h.queue != [] && SameEvent(h.queue[0].op, op) then Next(h.(queue := h.queue[1..])) else h
  }

  /** `_loadQueue()`: run the first task; it stays on the queue until its own event drops it. */
  function Next(h: Group): (r: Group)
    ensures |r.queue| <= |h.queue|
    decreases |h.queue|, 3, 0
  {
    if h.queue == [] then h else Act(h, h.queue[0])
  }

  /** A call that only reads, whether the group has loaded or not. */
  predicate OnlyReads(h: Group, t: Task) {
    || (t.op.SetVolume? && !(0.0 <= t.op.volume <= 1.0))
    || (t.op.MoveTo? && t.id == None && h.sounds == [])
  }

  /** A public call: queued while the group is loading or locked. */
  function Call(h: Group, t: Task): Group {
    if OnlyReads(h, t) then h
    else if !h.loaded || h.locked then h.(queue := h.queue + [t])
    else Act(h, t)
  }

  function Calls(h: Group, ts: seq<Task>): Group
    decreases |ts|
  {
    if ts == [] then h else Calls(Call(h, ts[0]), ts[1..])
  }

  /** Loading completes: 'load' steps no task of these kinds, then the queue runs. */
  function Loaded(h: Group): Group {
    Next(h.(loaded := true))
  }

  // ---------------------------------------------------------------- what a run of the queue comes to

  /** The call's event is emitted for the first id it works through. */
  predicate Speaks(sounds: seq<Sound>, t: Task) {
    var ids := Ids(sounds, t);
    ids != [] && Emits(sounds, t.op, ids[0])
  }

  predicate AllSpeak(sounds: seq<Sound>, ts: seq<Task>) {
    forall k :: 0 <= k < |ts| ==> Speaks(sounds, ts[k])
  }

  /** Apply an operation to each id, with no queue in sight. */
  function Apply(h: Group, turn: Turn, ids: seq<int>): Group
    decreases |ids|
  {
    if ids == [] then h else Apply(One(h, turn, ids[0]), turn, ids[1..])
  }

  /** What running a queue of calls that speak comes to: each call on its first sound, then all the later calls,
      then the first call on the rest of its sounds. */
  function Nested(h: Group, ts: seq<Task>): Group
    decreases |ts|
  {
    if ts == [] then h
    else
      var t := ts[0];
      var ids := Ids(h.sounds, t);
      var begun := Begun(h, t);
      if ids == [] then Nested(begun, ts[1..])
      else Apply(Nested(Apply(begun, TurnOf(h, t), ids[..1]), ts[1..]), TurnOf(h, t), ids[1..])
  }

  /** One call, made directly. */
  function Done(h: Group, t: Task): Group {
    Apply(Begun(h, t), TurnOf(h, t), Ids(h.sounds, t))
  }

  /** The calls made one after the other. */
  function Direct(h: Group, ts: seq<Task>): Group
    decreases |ts|
  {
    if ts == [] then h else Direct(Done(h, ts[0]), ts[1..])
  }

  /** Two pools with the same ids in the same places. */
  predicate SameIds(a: seq<Sound>, b: seq<Sound>) {
    |a| == |b| && forall i :: 0 <= i < |a| ==> a[i].id == b[i].id
  }

  lemma {:induction false} ApplyKeepsIds(h: Group, turn: Turn, ids: seq<int>)
    ensures SameIds(Apply(h, turn, ids).sounds, h.sounds)
    ensures Apply(h, turn, ids) == h.(sounds := Apply(h, turn, ids).sounds, effects := Apply(h, turn, ids).effects)
    decreases |ids|
  {
    if ids != [] {
      ApplyKeepsIds(One(h, turn, ids[0]), turn, ids[1..]);
    }
  }

  lemma {:induction false} NestedKeepsIds(h: Group, ts: seq<Task>)
    ensures SameIds(Nested(h, ts).sounds, h.sounds)
    decreases |ts|
  {
    if ts != [] {
      var t := ts[0];
      var ids := Ids(h.sounds, t);
      var begun := Begun(h, t);
      if ids == [] {
        NestedKeepsIds(begun, ts[1..]);
      } else {
        var first := Apply(begun, TurnOf(h, t), ids[..1]);
        ApplyKeepsIds(begun, TurnOf(h, t), ids[..1]);
        NestedKeepsIds(first, ts[1..]);
        ApplyKeepsIds(Nested(first, ts[1..]), TurnOf(h, t), ids[1..]);
      }
    }
  }

  /** With an empty queue events step nothing. */
  lemma {:induction false} QuietActs(h: Group, turn: Turn, ids: seq<int>)
    requires h.queue == []
    ensures ActOn(h, turn, ids) == Apply(h, turn, ids)
    decreases |ids|
  {
    if ids != [] {
      QuietActs(One(h, turn, ids[0]), turn, ids[1..]);
    }
  }

  lemma DirectIsActing(h: Group, t: Task)
    requires h.queue == []
    ensures Act(h, t) == Done(h, t)
  {
    QuietActs(Begun(h, t), TurnOf(h, t), Ids(h.sounds, t));
  }

  /** The queue of a group does not matter to what its calls come to. */
  lemma {:induction false} ApplyFrame(h: Group, turn: Turn, ids: seq<int>, q: seq<Task>)
    ensures Apply(h.(queue := q), turn, ids) == Apply(h, turn, ids).(queue := q)
    decreases |ids|
  {
    if ids != [] {
      assert One(h.(queue := q), turn, ids[0]) == One(h, turn, ids[0]).(queue := q);
      ApplyFrame(One(h, turn, ids[0]), turn, ids[1..], q);
    }
  }

  lemma SameEventSame(op: Op)
    ensures SameEvent(op, op)
  {
  }

  /** The first task that speaks: its effect on one sound, the rest of the queue, its effect on its other sounds. */
  function On(h: Group): Group
    requires h.queue != [] && Speaks(h.sounds, h.queue[0])
  {
    var t := h.queue[0];
    One(Begun(h, t), TurnOf(h, t), Ids(h.sounds, t)[0]).(queue := h.queue[1..])
  }

  lemma NextSpeaks(h: Group)
    requires h.queue != [] && Speaks(h.sounds, h.queue[0])
    ensures Next(h) == ActOn(Next(On(h)), TurnOf(h, h.queue[0]), Ids(h.sounds, h.queue[0])[1..])
  {
    var t := h.queue[0];
    var ids := Ids(h.sounds, t);
    var affected := One(Begun(h, t), TurnOf(h, t), ids[0]);
    SameEventSame(t.op);
    assert affected.(queue := affected.queue[1..]) == On(h);
    assert Emitted(affected, t.op) == Next(On(h));
    calc {
      Next(h);
      Act(h, t);
      ActOn(Begun(h, t), TurnOf(h, t), ids);
      ActOn(Emitted(affected, t.op), TurnOf(h, t), ids[1..]);
    }
  }

  /** A queue of calls that all speak empties in one go, and comes to the nested order. */
  lemma {:induction false} QueueNests(h: Group)
    requires AllSpeak(h.sounds, h.queue)
    ensures Next(h) == Nested(h.(queue := []), h.queue)
    ensures Next(h).queue == []
    decreases |h.queue|
  {
    if h.queue != [] {
      var t := h.queue[0];
      var ids := Ids(h.sounds, t);
      assert Speaks(h.sounds, t);
      NextSpeaks(h);
      var on := On(h);
      QueueNests(on);
      QuietActs(Next(on), TurnOf(h, t), ids[1..]);
      ApplyKeepsIds(Next(on), TurnOf(h, t), ids[1..]);
      assert ids[..1] == [ids[0]] && ids[..1][1..] == [];
      assert Apply(Begun(h.(queue := []), t), TurnOf(h, t), ids[..1]) == on.(queue := []);
    }
  }

  // ---------------------------------------------------------------- deferred equals direct

  /** Every call but the last works on exactly one sound. */
  predicate OneSoundEach(sounds: seq<Sound>, ts: seq<Task>) {
    forall k :: 0 <= k < |ts| - 1 ==> |Ids(sounds, ts[k])| == 1
  }

  lemma DoneKeepsIds(h: Group, t: Task)
    ensures SameIds(Done(h, t).sounds, h.sounds)
    ensures Done(h, t) == Begun(h, t).(sounds := Done(h, t).sounds, effects := Done(h, t).effects)
  {
    ApplyKeepsIds(Begun(h, t), TurnOf(h, t), Ids(h.sounds, t));
  }

  lemma ApplySplit(h: Group, turn: Turn, ids: seq<int>)
    requires ids != []
    ensures Apply(h, turn, ids) == Apply(Apply(h, turn, ids[..1]), turn, ids[1..])
  {
    assert ids[..1] == [ids[0]] && ids[..1][1..] == [];
  }

  /** A call on one sound, or the last call of all, has nothing left to do after the calls nested in it. */
  lemma NestedStep(h: Group, ts: seq<Task>)
    requires ts != [] && (|ts| == 1 || |Ids(h.sounds, ts[0])| == 1)
    ensures Nested(h, ts) == Nested(Done(h, ts[0]), ts[1..])
  {
    var t := ts[0];
    var ids := Ids(h.sounds, t);
    if ids != [] {
      ApplySplit(Begun(h, t), TurnOf(h, t), ids);
    }
  }

  lemma {:induction false} NestedIsDirect(h: Group, ts: seq<Task>)
    requires OneSoundEach(h.sounds, ts)
    ensures Nested(h, ts) == Direct(h, ts)
    decreases |ts|
  {
    if ts != [] {
      var next := Done(h, ts[0]);
      NestedStep(h, ts);
      DoneKeepsIds(h, ts[0]);
      forall k | 0 <= k < |ts[1..]| - 1
        ensures |Ids(next.sounds, ts[1..][k])| == 1
      {
      }
      NestedIsDirect(next, ts[1..]);
    }
  }

  predicate NoneOnlyReads(h: Group, ts: seq<Task>) {
    forall k :: 0 <= k < |ts| ==> !OnlyReads(h, ts[k])
  }

  lemma {:induction false} CallsQueue(h: Group, ts: seq<Task>)
    requires !h.loaded && NoneOnlyReads(h, ts)
    ensures Calls(h, ts) == h.(queue := h.queue + ts)
    decreases |ts|
  {
    if ts == [] {
      assert h.queue + ts == h.queue;
    } else {
      var next := h.(queue := h.queue + [ts[0]]);
      CallsQueue(next, ts[1..]);
      assert h.queue + [ts[0]] + ts[1..] == h.queue + ts;
    }
  }

  lemma {:induction false} CallsDirect(h: Group, ts: seq<Task>)
    requires h.loaded && !h.locked && h.queue == [] && NoneOnlyReads(h, ts)
    ensures Calls(h, ts) == Direct(h, ts)
    decreases |ts|
  {
    if ts != [] {
      var t := ts[0];
      DirectIsActing(h, t);
      DoneKeepsIds(h, t);
      var next := Done(h, t);
      forall k | 0 <= k < |ts[1..]|
        ensures !OnlyReads(next, ts[1..][k])
      {
        assert !OnlyReads(h, ts[k + 1]);
      }
      CallsDirect(next, ts[1..]);
    }
  }

  // ---------------------------------------------------------------- the order of the effects

  /** The ids each call works through. */
  function CallIds(sounds: seq<Sound>, ts: seq<Task>): seq<seq<int>> {
    if ts == [] then [] else [Ids(sounds, ts[0])] + CallIds(sounds, ts[1..])
  }

  /** All of one call, id by id. */
  function Whole(call: nat, ids: seq<int>): seq<Effect> {
    if ids == [] then [] else [Effect(call, ids[0])] + Whole(call, ids[1..])
  }

  /** One call after the other, from this number on. */
  function DirectOrder(call: nat, calls: seq<seq<int>>): seq<Effect>
    decreases |calls|
  {
    if calls == [] then [] else Whole(call, calls[0]) + DirectOrder(call + 1, calls[1..])
  }

  /** Each call's first id, then all the later calls, then its other ids. */
  function NestedOrder(call: nat, calls: seq<seq<int>>): seq<Effect>
    decreases |calls|
  {
    if calls == [] then []
    else if calls[0] == [] then NestedOrder(call + 1, calls[1..])
    else [Effect(call, calls[0][0])] + (NestedOrder(call + 1, calls[1..]) + Whole(call, calls[0][1..]))
  }

  lemma {:induction false} ApplyEffects(h: Group, turn: Turn, ids: seq<int>)
    ensures Apply(h, turn, ids).effects == h.effects + Whole(turn.call, ids) && Apply(h, turn, ids).log == h.log
    decreases |ids|
  {
    if ids != [] {
      ApplyEffects(One(h, turn, ids[0]), turn, ids[1..]);
    }
  }

  lemma {:induction false} SameCallIds(a: seq<Sound>, b: seq<Sound>, ts: seq<Task>)
    requires SameIds(a, b)
    ensures CallIds(a, ts) == CallIds(b, ts)
  {
    if ts != [] {
      SameCallIds(a, b, ts[1..]);
      assert PoolIds(a) == PoolIds(b);
    }
  }

  lemma {:induction false} DirectEffects(h: Group, ts: seq<Task>)
    ensures Direct(h, ts).effects == h.effects + DirectOrder(|h.log|, CallIds(h.sounds, ts))
    decreases |ts|
  {
    if ts != [] {
      var next, ids := Done(h, ts[0]), Ids(h.sounds, ts[0]);
      ApplyEffects(Begun(h, ts[0]), TurnOf(h, ts[0]), ids);
      DoneKeepsIds(h, ts[0]);
      DirectEffects(next, ts[1..]);
      SameCallIds(next.sounds, h.sounds, ts[1..]);
      assert CallIds(h.sounds, ts)[1..] == CallIds(h.sounds, ts[1..]);
      var rest := DirectOrder(|h.log| + 1, CallIds(h.sounds, ts[1..]));
      assert (h.effects + Whole(|h.log|, ids)) + rest == h.effects + (Whole(|h.log|, ids) + rest);
    }
  }

  lemma {:induction false} NestedEffects(h: Group, ts: seq<Task>)
    ensures Nested(h, ts).effects == h.effects + NestedOrder(|h.log|, CallIds(h.sounds, ts))
    decreases |ts|
  {
    if ts != [] {
      var t, n := ts[0], |h.log|;
      var ids := Ids(h.sounds, t);
      var begun := Begun(h, t);
      var calls := CallIds(h.sounds, ts);
      assert calls[1..] == CallIds(h.sounds, ts[1..]);
      if ids == [] {
        NestedEffects(begun, ts[1..]);
      } else {
        var first := Apply(begun, TurnOf(h, t), ids[..1]);
        ApplyEffects(begun, TurnOf(h, t), ids[..1]);
        ApplyKeepsIds(begun, TurnOf(h, t), ids[..1]);
        assert ids[..1] == [ids[0]] && Whole(n, ids[..1]) == [Effect(n, ids[0])] + Whole(n, ids[..1][1..]);
        NestedEffects(first, ts[1..]);
        SameCallIds(first.sounds, h.sounds, ts[1..]);
        ApplyEffects(Nested(first, ts[1..]), TurnOf(h, t), ids[1..]);
        var inner := NestedOrder(n + 1, calls[1..]);
        Reassociate(h.effects, [Effect(n, ids[0])], inner, Whole(n, ids[1..]));
      }
    }
  }

  lemma Reassociate(a: seq<Effect>, b: seq<Effect>, c: seq<Effect>, d: seq<Effect>)
    ensures ((a + b) + c) + d == a + (b + (c + d))
  {
  }

  /** The two orders are the same if and only if every call but the last works on one id. */
  lemma {:induction false} OrdersAgree(call: nat, calls: seq<seq<int>>)
    requires forall k :: 0 <= k < |calls| ==> calls[k] != []
    ensures NestedOrder(call, calls) == DirectOrder(call, calls) <==> forall k :: 0 <= k < |calls| - 1 ==> |calls[k]| == 1
    decreases |calls|
  {
    if |calls| > 1 {
      var rest := calls[1..];
      OrdersAgree(call + 1, rest);
      var first := [Effect(call, calls[0][0])];
      var inner, outer := NestedOrder(call + 1, rest), DirectOrder(call + 1, rest);
      assert NestedOrder(call, calls) == first + (inner + Whole(call, calls[0][1..]));
      assert DirectOrder(call, calls) == (first + Whole(call, calls[0][1..])) + outer;
      assert DirectOrder(call, calls) == first + (Whole(call, calls[0][1..]) + outer);
      if |calls[0]| == 1 {
        assert Whole(call, calls[0][1..]) == [] && inner + [] == inner && [] + outer == outer;
        Cancel(first, inner, outer);
        OneEachTail(calls);
      } else {
        // the second effect belongs to the next call in one order, and to this call in the other
        assert rest[0] != [] && inner[0] == Effect(call + 1, rest[0][0]);
        assert NestedOrder(call, calls)[1] == inner[0];
        assert DirectOrder(call, calls)[1] == Effect(call, calls[0][1]);
      }
    } else if |calls| == 1 {
      assert NestedOrder(call + 1, calls[1..]) == [] && DirectOrder(call + 1, calls[1..]) == [];
    }
  }

  lemma OneEachTail(calls: seq<seq<int>>)
    requires |calls| > 1 && |calls[0]| == 1
    ensures (forall k :: 0 <= k < |calls| - 1 ==> |calls[k]| == 1)
       <==> (forall k :: 0 <= k < |calls[1..]| - 1 ==> |calls[1..][k]| == 1)
  {
    if forall k :: 0 <= k < |calls[1..]| - 1 ==> |calls[1..][k]| == 1 {
      forall k | 0 <= k < |calls| - 1
        ensures |calls[k]| == 1
      {
        assert k > 0 ==> calls[k] == calls[1..][k - 1];
      }
    }
  }

  lemma Cancel(a: seq<Effect>, x: seq<Effect>, y: seq<Effect>)
    ensures a + x == a + y <==> x == y
  {
    assert (a + x)[|a|..] == x && (a + y)[|a|..] == y;
  }

  lemma {:induction false} CallIdsAt(sounds: seq<Sound>, ts: seq<Task>)
    ensures |CallIds(sounds, ts)| == |ts| && forall k :: 0 <= k < |ts| ==> CallIds(sounds, ts)[k] == Ids(sounds, ts[k])
  {
    if ts != [] {
      CallIdsAt(sounds, ts[1..]);
    }
  }

  /** A queue of calls that speak does what they do in the order they were made if and only if every call but the
      last works on one sound. */
  lemma OvertakenUnlessSingle(h: Group, ts: seq<Task>)
    requires AllSpeak(h.sounds, ts)
    ensures Nested(h, ts).effects == Direct(h, ts).effects <==> OneSoundEach(h.sounds, ts)
  {
    var calls, n := CallIds(h.sounds, ts), |h.log|;
    NestedEffects(h, ts);
    DirectEffects(h, ts);
    Cancel(h.effects, NestedOrder(n, calls), DirectOrder(n, calls));
    SpeakingCalls(h.sounds, ts);
    OrdersAgree(n, calls);
  }

  lemma SpeakingCalls(sounds: seq<Sound>, ts: seq<Task>)
    requires AllSpeak(sounds, ts)
    ensures var calls := CallIds(sounds, ts);
            && (forall k :: 0 <= k < |calls| ==> calls[k] != [])
            && (OneSoundEach(sounds, ts) <==> forall k :: 0 <= k < |calls| - 1 ==> |calls[k]| == 1)
  {
    var calls := CallIds(sounds, ts);
    CallIdsAt(sounds, ts);
    forall k | 0 <= k < |calls|
      ensures calls[k] != []
    {
      assert Speaks(sounds, ts[k]);
    }
    if forall k :: 0 <= k < |calls| - 1 ==> |calls[k]| == 1 {
      forall k | 0 <= k < |ts| - 1
        ensures |Ids(sounds, ts[k])| == 1
      {
        assert calls[k] == Ids(sounds, ts[k]);
      }
    }
  }

  /**
   Calls made while a group loads, each on existing sounds, leave the same group as the same calls made on
   the loaded group, with the same effects in the same order, if and only if every call but the last works
   on exactly one sound. Each is carried out once, in call order, and the queue is empty in any case.
   */
  lemma DeferredEqualsDirect(h: Group, ts: seq<Task>)
    requires !h.loaded && !h.locked && h.queue == []
    requires NoneOnlyReads(h, ts) && AllSpeak(h.sounds, ts)
    ensures Loaded(Calls(h, ts)) == Calls(h.(loaded := true), ts) <==> OneSoundEach(h.sounds, ts)
    ensures Loaded(Calls(h, ts)).effects == Calls(h.(loaded := true), ts).effects <==> OneSoundEach(h.sounds, ts)
    ensures Loaded(Calls(h, ts)).queue == [] && Loaded(Calls(h, ts)).log == h.log + ts
  {
    CallsQueue(h, ts);
    assert h.queue + ts == ts;
    var ready := h.(loaded := true);
    QueueNests(ready.(queue := ts));
    assert ready.(queue := ts).(queue := []) == ready;
    forall k | 0 <= k < |ts|
      ensures !OnlyReads(ready, ts[k])
    {
      assert !OnlyReads(h, ts[k]);
    }
    CallsDirect(ready, ts);
    OvertakenUnlessSingle(ready, ts);
    NestedLogs(ready, ts);
    if OneSoundEach(h.sounds, ts) {
      NestedIsDirect(ready, ts);
    }
  }

  lemma {:induction false} NestedLogs(h: Group, ts: seq<Task>)
    ensures Nested(h, ts).log == h.log + ts
    decreases |ts|
  {
    if ts == [] {
      assert h.log + ts == h.log;
    } else {
      var t := ts[0];
      var ids := Ids(h.sounds, t);
      var begun := Begun(h, t);
      if ids == [] {
        NestedLogs(begun, ts[1..]);
      } else {
        var first := Apply(begun, TurnOf(h, t), ids[..1]);
        ApplyEffects(begun, TurnOf(h, t), ids[..1]);
        NestedLogs(first, ts[1..]);
        ApplyEffects(Nested(first, ts[1..]), TurnOf(h, t), ids[1..]);
      }
      assert h.log + [t] + ts[1..] == h.log + ts;
    }
  }

  // ---------------------------------------------------------------- when the queue stops

  /** The number of calls before the first that does not speak. */
  function Spoken(sounds: seq<Sound>, ts: seq<Task>): (n: nat)
    ensures n <= |ts| && AllSpeak(sounds, ts[..n]) && (n < |ts| ==> !Speaks(sounds, ts[n]))
  {
    if ts == [] || !Speaks(sounds, ts[0]) then 0
    else
      var n := Spoken(sounds, ts[1..]);
      n + 1
  }

  lemma {:induction false} SpokenSameIds(a: seq<Sound>, b: seq<Sound>, ts: seq<Task>)
    requires SameIds(a, b)
    ensures Spoken(a, ts) == Spoken(b, ts)
  {
  }

  predicate Single(sounds: seq<Sound>, ts: seq<Task>) {
    forall k :: 0 <= k < |ts| ==> |Ids(sounds, ts[k])| == 1
  }

  /** A call that does not speak, on the one id it works through, changes no sound. */
  lemma {:induction false} SilentUpdate(sounds: seq<Sound>, op: Op, id: int)
    requires !Emits(sounds, op, id)
    ensures Update(sounds, id, op) == sounds
  {
    if sounds != [] {
      if sounds[0].id == id {
        assert Exists(sounds, id);
        assert Affect(sounds[0], op) == sounds[0];
      } else {
        SilentUpdate(sounds[1..], op, id);
      }
    }
  }

  /** The queue stopped at its n-th call: that call too has been carried out, but stays at the head. */
  function Stopped(h: Group, n: nat): Group
    requires n <= |h.queue|
  {
    Direct(h, if n < |h.queue| then h.queue[..n + 1] else h.queue).(queue := h.queue[n..])
  }

  lemma Shifted(q: seq<Task>, n: nat)
    requires 0 < n <= |q|
    ensures q[n..] == q[1..][n - 1..]
    ensures n < |q| ==> q[..n + 1][1..] == q[1..][..n]
  {
  }

  lemma StoppedLater(h: Group, n: nat)
    requires 0 < n <= |h.queue|
    ensures Stopped(Done(h, h.queue[0]).(queue := h.queue[1..]), n - 1) == Stopped(h, n)
  {
    var next, rest := Done(h, h.queue[0]), h.queue[1..];
    Shifted(h.queue, n);
    if n < |h.queue| {
      DirectFrame(next, rest[..n], rest);
    } else {
      DirectFrame(next, rest, rest);
    }
  }

  /**
   In general, with every call on one sound: the queue runs up to and including the first call that
   does not speak, and stops there, with that call still at its head.
   */
  lemma {:induction false} QueueStops(h: Group)
    requires Single(h.sounds, h.queue)
    ensures Next(h) == Stopped(h, Spoken(h.sounds, h.queue))
    decreases |h.queue|
  {
    if h.queue != [] {
      assert |Ids(h.sounds, h.queue[0])| == 1;
      if Speaks(h.sounds, h.queue[0]) {
        var on := On(h);
        QueueStops(on);
        SpokenSameIds(h.sounds, on.sounds, on.queue);
        OnIsDone(h);
        StoppedLater(h, Spoken(h.sounds, h.queue));
      } else {
        SilentNext(h);
        var first := h.queue[..1];
        assert first[1..] == [] && h.queue[0..] == h.queue;
        assert Direct(h, first) == Direct(Done(h, first[0]), first[1..]) == Next(h);
      }
    }
  }

  lemma OnIsDone(h: Group)
    requires h.queue != [] && Speaks(h.sounds, h.queue[0]) && |Ids(h.sounds, h.queue[0])| == 1
    ensures On(h) == Done(h, h.queue[0]).(queue := h.queue[1..])
    ensures Next(h) == Next(On(h))
  {
    var t := h.queue[0];
    var ids := Ids(h.sounds, t);
    assert ids == [ids[0]] && ids[1..] == [];
    NextSpeaks(h);
    assert Apply(Begun(h, t), TurnOf(h, t), ids) == One(Begun(h, t), TurnOf(h, t), ids[0]);
  }

  /** A task that does not speak is carried out, to no effect, and stays. */
  lemma SilentNext(h: Group)
    requires h.queue != [] && !Speaks(h.sounds, h.queue[0]) && |Ids(h.sounds, h.queue[0])| == 1
    ensures Next(h) == Done(h, h.queue[0]) && Next(h).sounds == h.sounds && Next(h).queue == h.queue
  {
    var t := h.queue[0];
    var ids := Ids(h.sounds, t);
    assert ids == [ids[0]] && ids[1..] == [];
    SilentUpdate(h.sounds, t.op, ids[0]);
    var one := One(Begun(h, t), TurnOf(h, t), ids[0]);
    calc {
      Next(h);
      Act(h, t);
      ActOn(Begun(h, t), TurnOf(h, t), ids);
      ActOn(one, TurnOf(h, t), []);
      one;
    }
    assert Apply(Begun(h, t), TurnOf(h, t), ids) == Apply(one, TurnOf(h, t), []);
  }

  lemma {:induction false} DirectFrame(h: Group, ts: seq<Task>, q: seq<Task>)
    ensures Direct(h.(queue := q), ts) == Direct(h, ts).(queue := q)
    decreases |ts|
  {
    if ts != [] {
      var t := ts[0];
      ApplyFrame(Begun(h, t), TurnOf(h, t), Ids(h.sounds, t), q);
      assert Done(h.(queue := q), t) == Done(h, t).(queue := q);
      DirectFrame(Done(h, t), ts[1..], q);
    }
  }

  /** With every call on one sound the queue empties if and only if every call speaks: no volume, mute, rate, seek or stop of a missing
      sound, and no negative seek. */
  lemma QueueEmpties(h: Group)
    requires Single(h.sounds, h.queue)
    ensures Next(h).queue == [] <==> AllSpeak(h.sounds, h.queue)
  {
    QueueStops(h);
    var n := Spoken(h.sounds, h.queue);
    if n < |h.queue| {
      assert !Speaks(h.sounds, h.queue[n]);
    } else {
      assert h.queue[..n] == h.queue;
    }
  }

  // ---------------------------------------------------------------- where a queue of any calls stops

  /** A call that is still waiting for the queue it has set going: what it does, and how many of its ids are left. */
  datatype Frame = Frame(op: Op, left: nat)

  /** The calls left when this queue is run inside these calls, innermost first: a call that speaks is dropped by its
      first event, and has events left for the rest of its ids; one that does not speak needs someone else's event. */
  function Waiting(sounds: seq<Sound>, frames: seq<Frame>, q: seq<Task>): seq<Task>
    decreases |q|, 1, 0
  {
    if q != [] && Speaks(sounds, q[0])
    then Waiting(sounds, [Frame(q[0].op, |Ids(sounds, q[0])| - 1)] + frames, q[1..])
    else Stuck(sounds, frames, q)
  }

  /** ... when its first call will not be dropped by its own event: the innermost call with an event of that kind left
      drops it and sets the queue going again, and the calls inside that one run out. */
  function Stuck(sounds: seq<Sound>, frames: seq<Frame>, q: seq<Task>): seq<Task>
    decreases |q|, 0, |frames|
  {
    if q == [] || frames == [] then q
    else if frames[0].left > 0 && SameEvent(q[0].op, frames[0].op)
    then Waiting(sounds, [frames[0].(left := frames[0].left - 1)] + frames[1..], q[1..])
    else Stuck(sounds, frames[1..], q)
  }

  /** A call with ids still to deal with. */
  datatype Suspended = Suspended(turn: Turn, ids: seq<int>)

  /** The calls in progress come to their ends, innermost first. */
  function Finish(h: Group, stack: seq<Suspended>): Group
    decreases |stack|
  {
    if stack == [] then h else Finish(ActOn(h, stack[0].turn, stack[0].ids), stack[1..])
  }

  function Frames(stack: seq<Suspended>): (frames: seq<Frame>)
    ensures |frames| == |stack| && forall i :: 0 <= i < |frames| ==> frames[i] == Frame(stack[i].turn.op, |stack[i].ids|)
  {
    seq(|stack|, i requires 0 <= i < |stack| => Frame(stack[i].turn.op, |stack[i].ids|))
  }

  /** Calls that spoke once emit their event for every id they have left. */
  predicate KeepSpeaking(sounds: seq<Sound>, stack: seq<Suspended>) {
    forall i, j :: 0 <= i < |stack| && 0 <= j < |stack[i].ids| ==> Emits(sounds, stack[i].turn.op, stack[i].ids[j])
  }

  lemma ExistsSame(a: seq<Sound>, b: seq<Sound>, id: int)
    requires SameIds(a, b)
    ensures Exists(a, id) == Exists(b, id)
  {
    if Exists(a, id) {
      var i :| 0 <= i < |a| && a[i].id == id;
      assert b[i].id == id;
    }
    if Exists(b, id) {
      var i :| 0 <= i < |b| && b[i].id == id;
      assert a[i].id == id;
    }
  }

  lemma KeepSpeakingSame(a: seq<Sound>, b: seq<Sound>, stack: seq<Suspended>)
    requires SameIds(a, b) && KeepSpeaking(a, stack)
    ensures KeepSpeaking(b, stack)
  {
    forall i, j | 0 <= i < |stack| && 0 <= j < |stack[i].ids|
      ensures Emits(b, stack[i].turn.op, stack[i].ids[j])
    {
      ExistsSame(a, b, stack[i].ids[j]);
    }
  }

  lemma SpeaksSame(a: seq<Sound>, b: seq<Sound>, t: Task)
    requires SameIds(a, b)
    ensures Ids(a, t) == Ids(b, t) && Speaks(a, t) == Speaks(b, t)
  {
    assert PoolIds(a) == PoolIds(b);
    if Ids(a, t) != [] {
      ExistsSame(a, b, Ids(a, t)[0]);
    }
  }

  lemma {:induction false} WaitingSame(a: seq<Sound>, b: seq<Sound>, frames: seq<Frame>, q: seq<Task>)
    requires SameIds(a, b)
    ensures Waiting(a, frames, q) == Waiting(b, frames, q)
    decreases |q|, 1, 0
  {
    if q != [] {
      SpeaksSame(a, b, q[0]);
    }
    if q != [] && Speaks(a, q[0]) {
      WaitingSame(a, b, [Frame(q[0].op, |Ids(a, q[0])| - 1)] + frames, q[1..]);
    } else {
      StuckSame(a, b, frames, q);
    }
  }

  lemma {:induction false} StuckSame(a: seq<Sound>, b: seq<Sound>, frames: seq<Frame>, q: seq<Task>)
    requires SameIds(a, b)
    ensures Stuck(a, frames, q) == Stuck(b, frames, q)
    decreases |q|, 0, |frames|
  {
    if q != [] && frames != [] {
      if frames[0].left > 0 && SameEvent(q[0].op, frames[0].op) {
        WaitingSame(a, b, [frames[0].(left := frames[0].left - 1)] + frames[1..], q[1..]);
      } else {
        StuckSame(a, b, frames[1..], q);
      }
    }
  }

  /** A call that speaks emits its event for all of its ids. */
  lemma SpeaksThroughout(sounds: seq<Sound>, t: Task)
    requires Speaks(sounds, t)
    ensures forall j :: 0 <= j < |Ids(sounds, t)| ==> Emits(sounds, t.op, Ids(sounds, t)[j])
  {
    forall j | 0 <= j < |Ids(sounds, t)|
      ensures Emits(sounds, t.op, Ids(sounds, t)[j])
    {
      if t.id == None && Ids(sounds, t) == PoolIds(sounds) {
        assert sounds[j].id == Ids(sounds, t)[j];
      }
    }
  }

  /** A call that does not speak works on one id at most, and comes to nothing. */
  lemma SilentActs(h: Group, t: Task)
    requires !Speaks(h.sounds, t)
    ensures Act(h, t).queue == h.queue && Act(h, t).sounds == h.sounds
  {
    var ids := Ids(h.sounds, t);
    if ids != [] {
      if t.id == None && h.sounds != [] {
        assert h.sounds[0].id == ids[0];
        assert Exists(h.sounds, ids[0]);
      }
      assert |ids| == 1;
      SilentUpdate(h.sounds, t.op, ids[0]);
      var one := One(Begun(h, t), TurnOf(h, t), ids[0]);
      assert ids[1..] == [] && ActOn(Begun(h, t), TurnOf(h, t), ids) == ActOn(one, TurnOf(h, t), []) == one;
    }
  }

  /** Events of another kind than the queue's first call step nothing. */
  lemma {:induction false} UnheardActs(h: Group, turn: Turn, ids: seq<int>)
    requires h.queue == [] || !SameEvent(h.queue[0].op, turn.op)
    ensures ActOn(h, turn, ids) == Apply(h, turn, ids)
    decreases |ids|
  {
    if ids != [] {
      UnheardActs(One(h, turn, ids[0]), turn, ids[1..]);
    }
  }

  lemma {:induction false} Runs(h: Group, stack: seq<Suspended>)
    requires KeepSpeaking(h.sounds, stack)
    ensures Finish(Next(h), stack).queue == Waiting(h.sounds, Frames(stack), h.queue)
    decreases |h.queue|, 1, 0
  {
    if h.queue == [] {
      Sticks(h, stack);
    } else {
      var t := h.queue[0];
      var ids := Ids(h.sounds, t);
      if Speaks(h.sounds, t) {
        var inner := Suspended(TurnOf(h, t), ids[1..]);
        var on, deeper := On(h), [inner] + stack;
        NextSpeaks(h);
        SpeaksThroughout(h.sounds, t);
        assert forall i :: 0 < i < |deeper| ==> deeper[i] == stack[i - 1];
        KeepSpeakingSame(h.sounds, on.sounds, deeper);
        Runs(on, deeper);
        assert deeper[1..] == stack && Finish(Next(on), deeper) == Finish(Next(h), stack);
        assert Frames(deeper) == [Frame(t.op, |ids| - 1)] + Frames(stack);
        WaitingSame(h.sounds, on.sounds, Frames(deeper), on.queue);
      } else {
        SilentActs(h, t);
        KeepSpeakingSame(h.sounds, Next(h).sounds, stack);
        Sticks(Next(h), stack);
        StuckSame(h.sounds, Next(h).sounds, Frames(stack), h.queue);
      }
    }
  }

  /** The innermost call in progress has dealt with one more id. */
  function OneLess(stack: seq<Suspended>): seq<Suspended>
    requires stack != [] && stack[0].ids != []
  {
    [Suspended(stack[0].turn, stack[0].ids[1..])] + stack[1..]
  }

  lemma FramesOfOneLess(sounds: seq<Sound>, stack: seq<Suspended>)
    requires KeepSpeaking(sounds, stack) && stack != [] && stack[0].ids != []
    ensures KeepSpeaking(sounds, OneLess(stack)) && OneLess(stack)[1..] == stack[1..]
    ensures var frames := Frames(stack);
            Frames(OneLess(stack)) == [frames[0].(left := frames[0].left - 1)] + frames[1..]
  {
    var less := OneLess(stack);
    forall i, j | 0 <= i < |less| && 0 <= j < |less[i].ids|
      ensures Emits(sounds, less[i].turn.op, less[i].ids[j])
    {
      assert less[i].ids[j] == if i == 0 then stack[0].ids[j + 1] else stack[i].ids[j];
    }
  }

  /** The innermost call in progress drops the queue's first call and sets the queue going again. */
  lemma {:induction false} Resumes(h: Group, stack: seq<Suspended>)
    requires KeepSpeaking(h.sounds, stack) && h.queue != [] && stack != [] && stack[0].ids != []
    requires SameEvent(h.queue[0].op, stack[0].turn.op)
    ensures Finish(h, stack).queue == Stuck(h.sounds, Frames(stack), h.queue)
    decreases |h.queue|, 0, 0
  {
    var turn, ids, outer := stack[0].turn, stack[0].ids, stack[1..];
    var again := One(h, turn, ids[0]).(queue := h.queue[1..]);
    var deeper := OneLess(stack);
    assert Emits(h.sounds, turn.op, stack[0].ids[0]);
    FramesOfOneLess(h.sounds, stack);
    assert ActOn(h, turn, ids) == ActOn(Next(again), turn, ids[1..]);
    assert Finish(h, stack) == Finish(Next(again), deeper);
    KeepSpeakingSame(h.sounds, again.sounds, deeper);
    Runs(again, deeper);
    WaitingSame(h.sounds, again.sounds, Frames(deeper), again.queue);
  }

  lemma {:induction false} Sticks(h: Group, stack: seq<Suspended>)
    requires KeepSpeaking(h.sounds, stack)
    ensures Finish(h, stack).queue == Stuck(h.sounds, Frames(stack), h.queue)
    decreases |h.queue|, 0, |stack|
  {
    if stack != [] {
      var turn, ids, outer := stack[0].turn, stack[0].ids, stack[1..];
      if h.queue != [] && ids != [] && SameEvent(h.queue[0].op, turn.op) {
        Resumes(h, stack);
      } else {
        if ids != [] {
          UnheardActs(h, turn, ids);
        }
        var next := ActOn(h, turn, ids);
        ApplyKeepsIds(h, turn, ids);
        KeepSpeakingSame(h.sounds, next.sounds, outer);
        Sticks(next, outer);
        assert Frames(stack)[1..] == Frames(outer);
        StuckSame(h.sounds, next.sounds, Frames(outer), h.queue);
      }
    }
  }

  /** Any queue stops where this count of the events left says it does, with exactly those calls still on it. */
  lemma QueueLeaves(h: Group)
    ensures Next(h).queue == Waiting(h.sounds, [], h.queue)
  {
    Runs(h, []);
    assert Frames([]) == [];
  }

  /** A queue settles if its calls speak, or if those that do not are dropped by events of calls on several sounds. */
  predicate Settles(sounds: seq<Sound>, q: seq<Task>) {
    Waiting(sounds, [], q) == []
  }

  /** So one run empties any queue, of whatever calls, if and only if it settles. */
  lemma QueueSettles(h: Group)
    ensures Next(h).queue == [] <==> Settles(h.sounds, h.queue)
  {
    QueueLeaves(h);
  }

  /** What is left are the last calls of the queue, and the first of them does not speak. */
  lemma {:induction false} WaitingIsRest(sounds: seq<Sound>, frames: seq<Frame>, q: seq<Task>)
    ensures var w := Waiting(sounds, frames, q);
            |w| <= |q| && w == q[|q| - |w|..] && (w != [] ==> !Speaks(sounds, w[0]))
    decreases |q|, 1, 0
  {
    if q != [] && Speaks(sounds, q[0]) {
      WaitingIsRest(sounds, [Frame(q[0].op, |Ids(sounds, q[0])| - 1)] + frames, q[1..]);
    } else {
      StuckIsRest(sounds, frames, q);
    }
  }

  lemma {:induction false} StuckIsRest(sounds: seq<Sound>, frames: seq<Frame>, q: seq<Task>)
    requires q != [] ==> !Speaks(sounds, q[0])
    ensures var w := Stuck(sounds, frames, q);
            |w| <= |q| && w == q[|q| - |w|..] && (w != [] ==> !Speaks(sounds, w[0]))
    decreases |q|, 0, |frames|
  {
    if q != [] && frames != [] {
      if frames[0].left > 0 && SameEvent(q[0].op, frames[0].op) {
        WaitingIsRest(sounds, [frames[0].(left := frames[0].left - 1)] + frames[1..], q[1..]);
      } else {
        StuckIsRest(sounds, frames[1..], q);
      }
    }
  }

  lemma {:induction false} NextKeepsIds(h: Group)
    ensures SameIds(Next(h).sounds, h.sounds)
    decreases |h.queue|, 3, 0
  {
    if h.queue != [] {
      ActOnKeepsIds(Begun(h, h.queue[0]), TurnOf(h, h.queue[0]), Ids(h.sounds, h.queue[0]));
    }
  }

  lemma {:induction false} ActOnKeepsIds(h: Group, turn: Turn, ids: seq<int>)
    ensures SameIds(ActOn(h, turn, ids).sounds, h.sounds)
    decreases |h.queue|, 1, |ids|
  {
    if ids != [] {
      var one := One(h, turn, ids[0]);
      var emitted := if Emits(h.sounds, turn.op, ids[0]) then Emitted(one, turn.op) else one;
      if one.queue != [] && SameEvent(one.queue[0].op, turn.op) {
        NextKeepsIds(one.(queue := one.queue[1..]));
      }
      ActOnKeepsIds(emitted, turn, ids[1..]);
    }
  }

  /** Whatever the queue, where it stops it waits: running it again changes no sound and drops nothing. */
  lemma StaysStopped(h: Group)
    ensures Next(Next(h)).queue == Next(h).queue && Next(Next(h)).sounds == Next(h).sounds
  {
    var r := Next(h);
    QueueLeaves(h);
    WaitingIsRest(h.sounds, [], h.queue);
    if r.queue != [] {
      NextKeepsIds(h);
      SpeaksSame(h.sounds, r.sounds, r.queue[0]);
      SilentActs(r, r.queue[0]);
    }
  }

  /**
   A queue stopped at a call that does not speak stays stopped: running it again changes no sound and drops
   nothing. Only the next event of that call's own kind drops it and runs the rest.
   */
  lemma StoppedUntilItsEvent(h: Group, op: Op)
    requires h.queue != [] && !Speaks(h.sounds, h.queue[0])
    ensures Next(h).queue == h.queue && Next(h).sounds == h.sounds
    ensures Emitted(h, op) == if SameEvent(h.queue[0].op, op) then Next(h.(queue := h.queue[1..])) else h
    ensures Emitted(h, op).queue == h.queue <==> !SameEvent(h.queue[0].op, op)
  {
    SilentActs(h, h.queue[0]);
  }

  /**
   Why a call on several sounds matters to when a queue settles: the second call here names a missing sound and
   never speaks, but the first one's event for its second sound drops it. Of another kind it would wait.
   */
  lemma SilentCallDropped(d: Deck, sp: Sprite)
    ensures var h := Group(true, false, [Sound(1001, d, sp, 1.0, false), Sound(1002, d, sp, 1.0, false)],
                           Settings(1.0, false, 1.0), [], [], []);
            var all, same, other := Task(SetVolume(0.5), None), Task(SetVolume(0.25), Some(9)), Task(SetMute(true), Some(9));
            && !Speaks(h.sounds, same) && Next(h.(queue := [all, same])).queue == []
            && !Speaks(h.sounds, other) && Next(h.(queue := [all, other])).queue == [other]
  {
    var sounds := [Sound(1001, d, sp, 1.0, false), Sound(1002, d, sp, 1.0, false)];
    var h := Group(true, false, sounds, Settings(1.0, false, 1.0), [], [], []);
    var all, same, other := Task(SetVolume(0.5), None), Task(SetVolume(0.25), Some(9)), Task(SetMute(true), Some(9));
    assert sounds[0].id == 1001 && Ids(sounds, all) == [1001, 1002];
    assert Speaks(sounds, all) && !Speaks(sounds, same) && !Speaks(sounds, other);
    var inside := [Frame(all.op, 1)];
    assert inside[0].(left := 0) == Frame(all.op, 0) && inside[1..] == [];
    QueueLeaves(h.(queue := [all, same]));
    QueueLeaves(h.(queue := [all, other]));
    assert [all, same][1..] == [same] && [same][1..] == [] && [all, other][1..] == [other];
    assert Waiting(sounds, [], [all, same]) == Waiting(sounds, inside + [], [same]) == Stuck(sounds, inside, [same]);
    assert Stuck(sounds, inside, [same]) == Waiting(sounds, [Frame(all.op, 0)] + [], []) == [];
    assert Waiting(sounds, [], [all, other]) == Waiting(sounds, inside + [], [other]) == Stuck(sounds, inside, [other]);
    assert Stuck(sounds, inside, [other]) == Stuck(sounds, [], [other]) == [other];
  }

  /**
   Why a call on several sounds must come last: its event for the first sound already starts the next
   call, so it overtakes the rest. Here the later, specific volume is lost.
   */
  lemma GroupCallOvertaken(d: Deck, sp: Sprite)
    ensures var a, b := Sound(1001, d, sp, 1.0, false), Sound(1002, d, sp, 1.0, false);
            var h := Group(true, false, [a, b], Settings(1.0, false, 1.0), [], [], []);
            var ts := [Task(SetVolume(0.5), None), Task(SetVolume(0.25), Some(1002))];
            && Next(h.(queue := ts)).sounds == [a.(volume := 0.5), b.(volume := 0.5)]
            && Direct(h, ts).sounds == [a.(volume := 0.5), b.(volume := 0.25)]
  {
    var a, b := Sound(1001, d, sp, 1.0, false), Sound(1002, d, sp, 1.0, false);
    var h := Group(true, false, [a, b], Settings(1.0, false, 1.0), [], [], []);
    var t0, t1 := Task(SetVolume(0.5), None), Task(SetVolume(0.25), Some(1002));
    var ts := [t0, t1];
    assert ts[1..] == [t1] && [t1][1..] == [];
    var all := Ids(h.sounds, t0);
    assert all == [1001, 1002];
    var a5, b5, b25 := a.(volume := 0.5), b.(volume := 0.5), b.(volume := 0.25);
    assert h.sounds[0].id == 1001 && h.sounds[1].id == 1002;
    forall k | 0 <= k < |ts|
      ensures Speaks(h.sounds, ts[k])
    {
    }
    QueueNests(h.(queue := ts));
    UpdatePair(a, b, t0.op);
    UpdatePair(a5, b, t0.op);
    UpdatePair(a5, b, t1.op);
    UpdatePair(a5, b25, t0.op);
    UpdatePair(a5, b5, t1.op);
    assert all[..1] == [1001] && all[1..] == [1002] && [1001][1..] == [] && [1002][1..] == [];
    var u0, u1 := Turn(0, t0.op), Turn(1, t1.op);
    var begun := Begun(h, t0);
    var first := One(begun, u0, 1001);
    assert first.sounds == [a5, b] && Apply(begun, u0, [1001]) == first;
    assert Ids(first.sounds, t1) == [1002] && |first.log| == 1;
    var second := One(Begun(first, t1), u1, 1002);
    assert second.sounds == [a5, b25] && Apply(Begun(first, t1), u1, [1002]) == second;
    assert [1002][..1] == [1002];
    assert Nested(first, [t1]) == second;
    assert Apply(second, u0, [1002]) == One(second, u0, 1002) && One(second, u0, 1002).sounds == [a5, b5];
    var both := One(first, u0, 1002);
    assert both.sounds == [a5, b5] && Apply(begun, u0, all) == Apply(first, u0, [1002]) == both;
    assert Ids(both.sounds, t1) == [1002];
    assert Direct(both, [t1]).sounds == [a5, b25];
  }

  lemma UpdatePair(a: Sound, b: Sound, op: Op)
    requires a.id == 1001 && b.id == 1002
    ensures Update([a, b], 1001, op) == [Affect(a, op), b]
    ensures Update([a, b], 1002, op) == [a, Affect(b, op)]
  {
  }

  // ---------------------------------------------------------------- what the calls are for

  /** What a call promises for a sound it addresses. The transport is told in terms of the ideal player, which only
      stores its position, and the end timer keeps agreeing with it. */
  predicate Carried(before: Sound, after: Sound, op: Op) {
    var was, now := PlayheadRuns.View(before.deck), PlayheadRuns.View(after.deck);
    && after.id == before.id && after.sprite == before.sprite && after.deck.now == before.deck.now
    && match op
       case SetVolume(v) => after.volume == v && after.muted == before.muted && after.deck == before.deck
       case SetMute(m) => after.muted == m && after.volume == before.volume && after.deck == before.deck
       case ChangeRate(r) => SameLevels(before, after) && now == was.(rate := r) && TimerStays(before, after)
       case MoveTo(x) =>
         && SameLevels(before, after)
         && now == PlayheadRuns.IdealStep(was, before.sprite, SeekTo(x))
         && (x >= 0.0 && (!was.playing || 0.0 < 1000.0 * x < before.sprite.offset + before.sprite.length) ==>
               now.position == x && now.playing == was.playing && !now.ended)
       case Hold => SameLevels(before, after) && now == was.(playing := false) && TimerStays(before, after)
       case Halt =>
         SameLevels(before, after) && now == was.(playing := false, ended := true, position := was.origin)
         && TimerStays(before, after)
  }

  predicate SameLevels(before: Sound, after: Sound) {
    after.volume == before.volume && after.muted == before.muted
  }

  predicate TimerStays(before: Sound, after: Sound) {
    DeckOk(before.deck, before.sprite) ==> DeckOk(after.deck, after.sprite)
  }

  /** Sounds as they come about: each with an id of its own, a sprite that makes sense and a transport that does. */
  predicate Sane(sounds: seq<Sound>) {
    && (forall i :: 0 <= i < |sounds| ==> sounds[i].sprite.Valid() && VoiceOk(sounds[i].deck.voice, sounds[i].deck.now))
    && (forall i, j :: 0 <= i < j < |sounds| ==> sounds[i].id != sounds[j].id)
  }

  /** A call addresses the sound it names; without an id a seek addresses the first sound, any other call all. */
  predicate Addresses(sounds: seq<Sound>, t: Task, i: nat)
    requires i < |sounds|
  {
    match t.id
    case Some(id) => sounds[i].id == id
    case None => !t.op.MoveTo? || i == 0
  }

  /** A call has been carried out: the sounds it addresses and no others, and without an id the group's own value. */
  predicate CallCarried(before: Group, after: Group, t: Task) {
    && |after.sounds| == |before.sounds|
    && (forall i :: 0 <= i < |before.sounds| ==>
          if Addresses(before.sounds, t, i) then Carried(before.sounds[i], after.sounds[i], t.op)
          else after.sounds[i] == before.sounds[i])
    && after.own.volume == (if t.id == None && t.op.SetVolume? then t.op.volume else before.own.volume)
    && after.own.muted == (if t.id == None && t.op.SetMute? then t.op.muted else before.own.muted)
    && after.own.rate == (if t.id == None && t.op.ChangeRate? then t.op.rate else before.own.rate)
  }

  /** A harmless step of the transport is one of the ideal player, and keeps the end timer in agreement. */
  lemma TransportCarries(d: Deck, sp: Sprite, e: Event)
    requires sp.Valid() && VoiceOk(d.voice, d.now) && Enabled(d, e) && (e.SetRate? || e.Pause? || e.Stop?)
    ensures PlayheadRuns.View(Step(d, sp, e)) == PlayheadRuns.IdealStep(PlayheadRuns.View(d), sp, e)
    ensures DeckOk(d, sp) ==> DeckOk(Step(d, sp, e), sp)
  {
    PlayheadRuns.StepRefines(d, sp, e);
    if DeckOk(d, sp) {
      TimerKept(d, sp, e);
    }
  }

  lemma SeekCarries(s: Sound, x: real)
    requires s.sprite.Valid() && VoiceOk(s.deck.voice, s.deck.now)
    ensures Carried(s, s.(deck := Step(s.deck, s.sprite, SeekTo(x))), MoveTo(x))
  {
    PlayheadRuns.StepRefines(s.deck, s.sprite, SeekTo(x));
  }

  lemma AffectCarries(s: Sound, op: Op)
    requires s.sprite.Valid() && VoiceOk(s.deck.voice, s.deck.now) && (op.ChangeRate? ==> op.rate != 0.0)
    ensures Carried(s, Affect(s, op), op)
  {
    match op
    case SetVolume(_) =>
    case SetMute(_) =>
    case ChangeRate(r) => TransportCarries(s.deck, s.sprite, SetRate(r));
    case MoveTo(x) => SeekCarries(s, x);
    case Hold => TransportCarries(s.deck, s.sprite, Pause);
    case Halt => TransportCarries(s.deck, s.sprite, Stop);
  }

  lemma OneAt(h: Group, turn: Turn, id: int, i: nat)
    requires i < |h.sounds| && forall j, k :: 0 <= j < k < |h.sounds| ==> h.sounds[j].id != h.sounds[k].id
    ensures One(h, turn, id).sounds[i] == if h.sounds[i].id == id then Affect(h.sounds[i], turn.op) else h.sounds[i]
  {
    if Exists(h.sounds, id) {
      var k :| 0 <= k < |h.sounds| && h.sounds[k].id == id;
      UpdateAt(h.sounds, k, turn.op);
    } else {
      UpdateMissing(h.sounds, id, turn.op);
    }
  }

  lemma {:induction false} ApplyAt(h: Group, turn: Turn, ids: seq<int>, i: nat)
    requires i < |h.sounds| && forall j, k :: 0 <= j < k < |h.sounds| ==> h.sounds[j].id != h.sounds[k].id
    requires forall j, k :: 0 <= j < k < |ids| ==> ids[j] != ids[k]
    ensures var r := Apply(h, turn, ids);
            && |r.sounds| == |h.sounds| && r.own == h.own && r.queue == h.queue
            && r.sounds[i] == if h.sounds[i].id in ids then Affect(h.sounds[i], turn.op) else h.sounds[i]
    decreases |ids|
  {
    if ids != [] {
      var id, rest := ids[0], ids[1..];
      OneAt(h, turn, id, i);
      ApplyAt(One(h, turn, id), turn, rest, i);
      assert ids == [id] + rest && id !in rest;
    }
  }

  lemma AddressedIds(sounds: seq<Sound>, t: Task)
    requires Sane(sounds)
    ensures var ids := Ids(sounds, t);
            && (forall j, k :: 0 <= j < k < |ids| ==> ids[j] != ids[k])
            && forall i :: 0 <= i < |sounds| ==> (sounds[i].id in ids <==> Addresses(sounds, t, i))
  {
    var ids := Ids(sounds, t);
    forall i | 0 <= i < |sounds|
      ensures sounds[i].id in ids <==> Addresses(sounds, t, i)
    {
      if t.id == None && ids == PoolIds(sounds) {
        assert ids[i] == sounds[i].id;
      }
    }
  }

  lemma DoneCarries(h: Group, t: Task)
    requires Sane(h.sounds) && (t.op.ChangeRate? ==> t.op.rate != 0.0)
    ensures CallCarried(h, Done(h, t), t) && Done(h, t).queue == h.queue
  {
    var r, ids := Done(h, t), Ids(h.sounds, t);
    AddressedIds(h.sounds, t);
    DoneKeepsIds(h, t);
    forall i | 0 <= i < |h.sounds|
      ensures if Addresses(h.sounds, t, i) then Carried(h.sounds[i], r.sounds[i], t.op)
              else r.sounds[i] == h.sounds[i]
    {
      ApplyAt(Begun(h, t), TurnOf(h, t), ids, i);
      AffectCarries(h.sounds[i], t.op);
    }
  }

  /** A volume outside [0, 1], and a seek of a group without sounds, change nothing and wait for nothing; every other call
      made while the group loads waits for it. */
  lemma CallsThatRead(h: Group, t: Task)
    ensures t.op.SetVolume? && (t.op.volume < 0.0 || t.op.volume > 1.0) ==> Call(h, t) == h
    ensures t.op.MoveTo? && t.id == None && |h.sounds| == 0 ==> Call(h, t) == h
    ensures (!h.loaded || h.locked) && !(t.op.SetVolume? && (t.op.volume < 0.0 || t.op.volume > 1.0))
            && !(t.op.MoveTo? && t.id == None && |h.sounds| == 0)
            ==> Call(h, t) == h.(queue := h.queue + [t])
  {
  }

  /** A call that acts, on a loaded group with nothing queued, whose sounds are as they come about. */
  predicate Plain(h: Group, t: Task) {
    && h.loaded && !h.locked && h.queue == [] && !OnlyReads(h, t)
    && Sane(h.sounds) && (t.op.ChangeRate? ==> t.op.rate != 0.0)
  }

  /** A call on a loaded group is carried out. */
  lemma DirectCallCarried(h: Group, t: Task)
    requires Plain(h, t)
    ensures CallCarried(h, Call(h, t), t) && Call(h, t).queue == []
  {
    DirectIsActing(h, t);
    DoneCarries(h, t);
  }

  /** One made while the group loads is carried out when it has loaded, and not before. */
  lemma QueuedCallCarried(h: Group, t: Task)
    requires !h.loaded && !h.locked && h.queue == [] && !OnlyReads(h, t)
    requires Sane(h.sounds) && (t.op.ChangeRate? ==> t.op.rate != 0.0)
    ensures Call(h, t) == h.(queue := [t])
    ensures CallCarried(h, Loaded(Call(h, t)), t)
  {
    var on := h.(loaded := true);
    assert Call(h, t) == h.(queue := [t]);
    DoneCarries(on, t);
    if Speaks(h.sounds, t) {
      var ts := [t];
      assert ts[1..] == [] && Calls(h, ts) == Calls(Call(h, t), []) == Call(h, t);
      assert Calls(on, ts) == Calls(Call(on, t), []) == Call(on, t);
      DeferredEqualsDirect(h, ts);
      DirectIsActing(on, t);
    } else {
      var waiting := on.(queue := [t]);
      SilentActs(waiting, t);
      SilentOwned(waiting, t);
      DirectIsActing(on, t);
      SilentActs(on, t);
      SilentOwned(on, t);
    }
  }

  /** A call that does not speak still sets the group's own value, if it is one without an id. */
  lemma {:induction false} ActOwned(h: Group, turn: Turn, ids: seq<int>)
    requires h.queue == []
    ensures ActOn(h, turn, ids).own == h.own
    decreases |ids|
  {
    QuietActs(h, turn, ids);
    ApplyKeepsIds(h, turn, ids);
  }

  lemma SilentOwned(h: Group, t: Task)
    requires !Speaks(h.sounds, t)
    ensures Act(h, t).own == Owned(h.own, t)
  {
    var ids := Ids(h.sounds, t);
    if ids != [] {
      if t.id == None && h.sounds != [] {
        assert h.sounds[0].id == ids[0];
        assert Exists(h.sounds, ids[0]);
      }
      var one := One(Begun(h, t), TurnOf(h, t), ids[0]);
      assert ids[1..] == [] && ActOn(Begun(h, t), TurnOf(h, t), ids) == ActOn(one, TurnOf(h, t), []) == one;
    }
  }

  // ---------------------------------------------------------------- the group

  class Howl {
    var loaded: bool
    var locked: bool
    var sounds: seq<Sound>
    var own: Settings
    var queue: seq<Task>
    var log: seq<Task>
    var effects: seq<Effect>

    function State(): Group
      reads this
    {
      Group(loaded, locked, sounds, own, queue, log, effects)
    }

    constructor (sounds: seq<Sound>, own: Settings)
      ensures State() == Group(false, false, sounds, own, [], [], [])
    {
      loaded, locked := false, false;
      this.sounds := sounds;
      this.own := own;
      queue, log, effects := [], [], [];
    }

    /** `_soundById`, by index. */
    method Find(id: int) returns (index: Option<nat>)
      ensures index.Some? ==> index.value < |sounds| && sounds[index.value].id == id
      ensures index.Some? ==> forall j :: 0 <= j < index.value ==> sounds[j].id != id
      ensures index.Some? <==> Exists(sounds, id)
    {
      for i := 0 to |sounds|
        invariant forall j :: 0 <= j < i ==> sounds[j].id != id
      {
        if sounds[i].id == id {
          return Some(i);
        }
      }
      return None;
    }

    /** The effect on one id; the answer is whether there is such a sound. */
    method AffectOne(op: Op, id: int) returns (found: bool)
      modifies `sounds
      ensures sounds == Update(old(sounds), id, op) && found == Exists(old(sounds), id)
    {
      var at := Find(id);
      found := at.Some?;
      if found {
        UpdateAt(sounds, at.value, op);
        sounds := sounds[at.value := Affect(sounds[at.value], op)];
      } else {
        UpdateMissing(sounds, id, op);
      }
    }

    /** One round of a call's loop: the effect on one id, then the event. */
    method ActOne(turn: Turn, id: int)
      modifies this
      ensures var h := old(State());
              State() == if Emits(h.sounds, turn.op, id) then Emitted(One(h, turn, id), turn.op) else One(h, turn, id)
      decreases |queue|, 1
    {
      var op := turn.op;
      var found := AffectOne(op, id);
      effects := effects + [Effect(turn.call, id)];
      if (op.Hold? || found) && (op.MoveTo? ==> op.position >= 0.0) {
        LoadQueue(Some(op));
      }
    }

    /** The start of a call: without an id it may change the group's own values. */
    method Begin(t: Task)
      modifies `log, `own
      ensures State() == Begun(old(State()), t)
    {
      log := log + [t];
      if t.id == None {
        match t.op
        case SetVolume(v) => own := own.(volume := v);
        case SetMute(m) => own := own.(muted := m);
        case ChangeRate(r) => own := own.(rate := r);
        case _ =>
      }
    }

    /** `volume`, `mute`, `rate`, `seek`, `pause` or `stop`, on a loaded group. */
    method Perform(t: Task)
      modifies this
      ensures State() == Act(old(State()), t)
      decreases |queue|, 2
    {
      var ids := Ids(sounds, t);
      var turn := Turn(|log|, t.op);
      Begin(t);
      ghost var begun := State();
      for i := 0 to |ids|
        invariant ActOn(begun, turn, ids) == ActOn(State(), turn, ids[i..])
        invariant |queue| <= |old(queue)|
      {
        ActOne(turn, ids[i]);
        assert ids[i..][1..] == ids[i + 1..];
      }
    }

    /** `_loadQueue`, with the event just emitted or without one. */
    method LoadQueue(event: Option<Op>)
      modifies this
      ensures State() == match event case Some(op) => Emitted(old(State()), op) case None => Next(old(State()))
      decreases |queue|, if event.Some? then 0 else 3
    {
      if queue != [] {
        var task := queue[0];
        if event.Some? {
          if SameEvent(task.op, event.value) {
            queue := queue[1..];
            LoadQueue(None);
          }
        } else {
          Perform(task);
        }
      }
    }

    /** A public call. */
    method Request(t: Task)
      modifies this
      ensures State() == Call(old(State()), t)
      ensures old(Plain(State(), t)) ==> CallCarried(old(State()), State(), t)
    {
      ghost var h := State();
      if Plain(h, t) {
        DirectCallCarried(h, t);
      }
      if (t.op.SetVolume? && !(0.0 <= t.op.volume <= 1.0)) || (t.op.MoveTo? && t.id == None && sounds == []) {
        return;
      }
      if !loaded || locked {
        queue := queue + [t];
      } else {
        Perform(t);
      }
    }

    /** `loadSound`. */
    method OnLoad()
      modifies this
      ensures State() == Loaded(old(State()))
    {
      loaded := true;
      LoadQueue(None);
    }
  }

  lemma UpdatedAt(xs: seq<Sound>, i: nat, x: Sound)
    requires i < |xs|
    ensures xs[i := x] == if i == 0 then [x] + xs[1..] else [xs[0]] + xs[1..][i - 1 := x]
  {
  }

  lemma {:induction false} UpdateAt(sounds: seq<Sound>, i: nat, op: Op)
    requires i < |sounds| && forall j :: 0 <= j < i ==> sounds[j].id != sounds[i].id
    ensures Update(sounds, sounds[i].id, op) == sounds[i := Affect(sounds[i], op)]
  {
    UpdatedAt(sounds, i, Affect(sounds[i], op));
    if i > 0 {
      assert forall j :: 0 <= j < i - 1 ==> sounds[1..][j].id == sounds[j + 1].id;
      UpdateAt(sounds[1..], i - 1, op);
    }
  }

  lemma {:induction false} UpdateMissing(sounds: seq<Sound>, id: int, op: Op)
    requires !Exists(sounds, id)
    ensures Update(sounds, id, op) == sounds
  {
    if sounds != [] {
      UpdateMissing(sounds[1..], id, op);
    }
  }
}
