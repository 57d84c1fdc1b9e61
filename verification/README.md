# A verified model of the browser audio player

The page's audio player (`src/main/resources/howler.core.js`) and the client that drives it
(`src/main/resources/websocket.js`), modelled in Dafny and proved. `dafny verify dfyconfig.toml` checks
everything.

The player is event-driven state. A `Howl` is a group: a pool of `Sound` objects that are recycled under fresh
ids, end timers keyed by those ids, and a queue of calls that wait for loading. The playhead is never stored: it
is recomputed from `_seek`, `_rateSeek` and `_playStart` on every call, and the end timer has to keep agreeing
with it. Around the groups stand one controller, one AudioContext that is suspended when idle and resumed by a
play, listener lists that are cut while they are walked, fades with rounding, a pool of HTML5 audio nodes, and a
cache of decoded buffers.

| file | part of the player |
|---|---|
| `Playhead.dfy`, `PlayheadRuns.dfy` | one sound: playhead and end timer as a step function, its invariants, and its refinement of an ideal player |
| `Draining.dfy` | what draining a pool means |
| `Player.dfy`, `PlayerRuns.dfy` | the classes `Howler`, `Howl` and `Sound`: every call, tied to the step function, and runs over many groups |
| `PlayQueue.dfy` | plays queued before loading, and the callbacks that step them |
| `Tasks.dfy` | calls queued before loading, and the recursion that steps them |
| `Events.dfy` | listener lists and emission |
| `Suspension.dfy`, `SuspensionRuns.dfy`, `SuspensionCalm.dfy`, `SuspensionStarts.dfy` | the suspend/resume protocol, what its runs keep, when the context runs under what plays, and when a start that had to wait finds its sound paused |
| `Fade.dfy` | the fade interval |
| `AudioNodes.dfy` | ownership of HTML5 audio nodes |
| `BufferCache.dfy` | the shared buffers and `unload` |
| `Client.dfy` | the page's client |
| `Wrappers.dfy` | an optional value, two functions on numbers, and a little about lists |

Imperative parts are classes whose methods are proved against specification functions; what the player is for is
then proved about those functions, or kept as an invariant of the classes.

Nine promises turn out not to hold without exception. For each the exact condition is proved, mostly with a lemma
that gives a run breaking it:

- An end timer can be left under a paused sound: a looping sound started at or past its end is ended while paused
  and gets a timer anyway (`Playhead.TimerKept`, `PlayheadRuns.LoopPastEndLeaksATimer`).
- `once` can take a lasting listener with it: `off` removes the first entry with the same callback and id
  (`Events.EmissionExact`, `Events.OnceTakesALastingTwin`).
- The queue need not empty: a queued volume, mute, rate, seek or stop of a missing sound, or a negative seek, emits
  nothing and waits for an event of its kind. One may still come from inside the queue, from an earlier call on
  several sounds; counting the events such calls have left says for any queue where it stops
  (`Tasks.QueueLeaves`, `Tasks.QueueSettles`, `Tasks.SilentCallDropped`, `Tasks.StoppedUntilItsEvent`).
- Of several plays queued before loading not all need start: one of a missing sound emits no 'play', and neither does
  the first one of a sound at its end, which is only rewound; behind a play that starts such a sound is played twice
  and does start (`PlayQueue.EveryPlayStarts`, `PlayerRuns.LoadToTheEnd`, `PlayQueue.EndedSoundStarts`).
- Calls on existing sounds, queued while loading, do what they do in another order than the same calls made on a
  loaded group, exactly when a call other than the last works on several sounds: the next call overtakes it after its
  first sound
  (`Tasks.OvertakenUnlessSingle`, `Tasks.DeferredEqualsDirect`, `Tasks.GroupCallOvertaken`).
- The context can be suspended under a playing sound. It happens through exactly two kinds of start: a deferred one
  that runs while a suspend timer is live or a suspension is unsettled, and a play that finds the context running
  while an earlier suspension is still unsettled (`SuspensionCalm.CalmKept`, `SuspensionCalm.CalmUnlessBadStart`,
  with the runs `SuspensionCalm.SuspendsUnderDeferredPlay` and `SuspensionCalm.SuspendsUnderPromptPlay`).
- A start that waited for the context can run on a sound that already plays, and then leaves two timeouts. Every start
  to come stays the only one of a paused sound exactly as long as no such sound is played again
  (`SuspensionStarts.StartsOnceUnlessPlayedAgain`, `SuspensionStarts.LateStartUnderPlayingSound`, `Playhead.LateStartTimer`).
- A fade from a volume to itself never ends (`Fade.FadeCanEnd`), and a volume set during a fade is overwritten by
  the fade's target (`Fade.Fader.SetVolume`).
- Unloading a group whose source is a list of candidates, one it never picked from or one that a refused `load` made
  of the URL it had picked, can delete another group's buffer, because the list reads as its members joined with
  commas when it is used as a key (`BufferCache.BufferKept`, `BufferCache.KeptUnlessColliding`,
  `BufferCache.CommaCollision`).

Where the code and its comments disagree the model follows the code: for example `off` removes one entry, not
every matching one, and the first of several deferred plays to start drops the lock for all of them.

Times, rates, positions and volumes are exact reals. What the browser does (time passing, timeouts coming due,
promises settling, downloads being decoded, constructors failing) appears as steps or parameters, in any order.

## Model

| member | source | states |
|---|---|---|
| Playhead.ArmedForTheRest | src/main/resources/howler.core.js:848-876 | a timer armed for the time the playhead still needs is due exactly when the playhead reaches the sprite end; armed late it is never early |
| Playhead.RatePosition | src/main/resources/howler.core.js:1549-1554 | a rate change on a playing sound leaves the position `seek(id)` reports unchanged, also at position 0, where `_rateSeek` reads as unset |
| Playhead.PositionMoves | src/main/resources/howler.core.js:1680-1683 | while a sound plays the reported position advances by rate times elapsed time; while it is paused it stands still |
| Playhead.VoiceKept | src/main/resources/howler.core.js:826-876 | every step keeps: ended implies paused, paused implies `_rateSeek` unset or 0, a playing sound has its start and stop, a buffer source exists exactly while playing |
| Playhead.PlayedFromTheTop | src/main/resources/howler.core.js:826-871 | a paused sound that stands at 0 is played from its sprite's offset to the end of its length, all in the sprite's own milliseconds, with one timer for exactly that length at the sound's rate; it stays paused if and only if the length is 0 |
| Playhead.PlayedFromWhereItStands | src/main/resources/howler.core.js:826-871 | one that stands further on is played from there, with a timer for what is left of the sprite; it stays paused if and only if nothing is left |
| Playhead.PlayTimer | src/main/resources/howler.core.js:826-876 | `play` leaves exactly one live timer, agreeing with the playhead, if and only if it does not start a looping sound at or past its end |
| Playhead.RateTimer | src/main/resources/howler.core.js:1549-1571 | `rate` on a playing sound replaces the timer by one that agrees with the playhead under the new rate |
| Playhead.SeekTimer | src/main/resources/howler.core.js:1649-1677 | `seek(x)` on a playing sound: the same, with the same single exception |
| Playhead.LoopTimer | src/main/resources/howler.core.js:1466-1481 | `loop(true)` on a playing sound: the same, with the same single exception |
| Playhead.TimeoutTimer | src/main/resources/howler.core.js:1951-1991 | `_ended` run by its timer: a looping sound restarts with an agreeing timer, any other is paused with none |
| Playhead.TimerKept | src/main/resources/howler.core.js:1951-2028 | over all eight kinds of step: the timer discipline (a playing sound has exactly the one live timeout stored in `_endTimers`, and while its deadline is ahead it is exactly when the playhead reaches the sprite end, while an overdue one finds the playhead there or past it; a paused sound has none) is kept if and only if the step does not start a looping sound at or past its end; agreement also of an overdue deadline is kept unless the rate is changed then |
| Playhead.LateStartTimer | src/main/resources/howler.core.js:856-892 | a start that waited for the context, with the position and timeout of its call, keeps the timer discipline if and only if its sound is still paused, at the same rate up to sign, on a sprite with the same bounds; on a playing sound it leaves two live timeouts |
| PlayheadRuns.StepRefines | src/main/resources/howler.core.js:826-844 | each step of the real representation is one step of an ideal player that just stores its position and whether it has ended: rebasing `_rateSeek` and `_playStart` is invisible; a stop and reaching the end mark a sound as ended, playing or moving it takes the mark off, a pause leaves it |
| PlayheadRuns.RunRefines | src/main/resources/howler.core.js:1680-1683 | the same over whole runs: what `seek(id)` reports is what the ideal player stores, and a sound counts as ended exactly when the ideal one does |
| PlayheadRuns.PlayheadIsIntegral | src/main/resources/howler.core.js:1680-1683 | over any interleaving of time, rate changes, pause and resume, `seek(id)` is the start position plus the sum of |rate| * dt over the playing intervals |
| PlayheadRuns.ResumeKeepsPosition | src/main/resources/howler.core.js:826 | exactly when resuming a paused sound leaves its position alone: before its end, and not at 0 with an offset sprite |
| PlayheadRuns.TimerOkThroughout | src/main/resources/howler.core.js:847-876 | over a whole run the timer discipline holds in every state if and only if no step starts a looping sound at or past its end |
| PlayheadRuns.EndTimerAgrees | src/main/resources/howler.core.js:1549-1571 | over such a run without overdue rate changes, the deadline is always the instant the playhead reaches the sprite end |
| PlayheadRuns.TimeoutFindsTheEnd | src/main/resources/howler.core.js:1951-1983 | `_ended` never runs before the playhead is at the end, and a punctual timer finds it exactly there |
| PlayheadRuns.LoopPastEndLeaksATimer | src/main/resources/howler.core.js:847-850 | the exception is real: seek past the end of a looping sound and play twice, and two timeouts are live |
| Draining.DropLastIsExact | src/main/resources/howler.core.js:2085-2107 | walking from the back and cutting n inactive sounds keeps every active sound, keeps the order, and removes exactly the last n inactive ones |
| Draining.SmallPool | src/main/resources/howler.core.js:2080-2083 | a pool within the limit is left as it is |
| Draining.DrainedCount | src/main/resources/howler.core.js:2085-2107 | a drained pool has at most `limit` inactive sounds |
| Draining.DrainedRoom | src/main/resources/howler.core.js:2085-2107 | a pool that may keep an inactive sound, and has one, still has one when it is drained, and has not grown |
| Draining.WalkStep | src/main/resources/howler.core.js:2093-2106 | one round of the removing loop, seen against the whole pool |
| Player.Howler.NextId | src/main/resources/howler.core.js:2229 | an id is one more than the counter, above 1000, and was never issued before |
| Player.Sound.constructor | src/main/resources/howler.core.js:2214-2226 | a new sound takes loop and rate from its group, is paused and ended, has no position, start or stop |
| Player.Sound.Reset | src/main/resources/howler.core.js:2288-2307 | a recycled sound goes back to its first values under an id never issued before; its last start and stop stay |
| Player.Howl.constructor | src/main/resources/howler.core.js:598-633 | a new group is registered, empty and unloaded |
| Player.Howl.SoundById | src/main/resources/howler.core.js:2038-2049 | finds the only sound with the id, or null when there is none |
| Player.Howl.ClearTimer | src/main/resources/howler.core.js:2013-2028 | the timeout stored under the id is cleared in the browser and forgotten; nothing else changes |
| Player.Howl.ArmTimer | src/main/resources/howler.core.js:869-871 | a timeout bound to this sound is stored under its id |
| Player.Howl.RestartLoop | src/main/resources/howler.core.js:1975-1983 | a looping sound that ended is rewound and gets a timer for one more round (the 'play' event it emits first is `PlayEmitted`, called by `Timeout`) |
| Player.Howl.Ended | src/main/resources/howler.core.js:1951-1997 | `_ended`: exactly the specified step on this sound, every other sound untouched (no queued call waits for its 'end' event; its 'play' event is `PlayEmitted`, called by `Timeout`) |
| Player.Howl.GetSeek | src/main/resources/howler.core.js:1680-1683 | `seek(id)` reports the computed position of the only sound with the id, nothing without one |
| Player.Howl.StartSound | src/main/resources/howler.core.js:838-871 | `playWebAudio`: parameters, buffer source and end timer as specified, every other sound untouched |
| Player.Howl.PlaySound | src/main/resources/howler.core.js:826-876 | starts the sound if it stands before its end, otherwise ends it at once |
| Player.Howl.PauseSound | src/main/resources/howler.core.js:1028-1060 | `pause` of one sound: timer cleared, the computed position stored, every other sound untouched |
| Player.Howl.StopSound | src/main/resources/howler.core.js:1097-1128 | `stop` of one sound: timer cleared, rewound to its start, paused and ended |
| Player.Howl.SeekSound | src/main/resources/howler.core.js:1653-1677 | `seek(x)` of one sound: a playing one is paused, moved and played again |
| Player.Howl.TuneSound | src/main/resources/howler.core.js:1549-1554 | `rate`, first half: a playing sound is rebased at its position, then the rate changes |
| Player.Howl.RetimeSound | src/main/resources/howler.core.js:1563-1571 | `rate`, second half: a sound that plays or has a timer gets one for the time it has left |
| Player.Howl.LoopSound | src/main/resources/howler.core.js:1469-1482 | `loop` of one sound: a playing one is paused and played again so that it loops |
| Player.Howl.Pause | src/main/resources/howler.core.js:1022-1068 | `pause(id)` and `pause()`: exactly the addressed sounds make the step, and the group stays valid |
| Player.Howl.Stop | src/main/resources/howler.core.js:1092-1140 | `stop(id)` and `stop()`: the same; every addressed sound is then at its start, ended so that the pool may give it away, paused, and without a timer |
| Player.Howl.Rate | src/main/resources/howler.core.js:1533-1577 | `rate(r, id)` and `rate(r)`: the same; without an id it is also the group rate |
| Player.Howl.Loop | src/main/resources/howler.core.js:1445-1488 | `loop(on, id)` and `loop(on)`: the same; the group stays valid if and only if no addressed playing sound stands at or past its end |
| Player.Howl.Seek | src/main/resources/howler.core.js:1639-1687 | `seek(x, id)`: the same, valid if and only if no looping sound is moved to or past its end while playing; a negative x changes nothing |
| Player.Howl.TurnedValid | src/main/resources/howler.core.js:2013-2028 | a valid group stays valid under a step of any of its sounds if and only if the step is safe for each of them |
| Player.Howl.GetSoundIds | src/main/resources/howler.core.js:2116-2129 | the id given, or the ids of all sounds in the pool, each once |
| Player.Howl.CountEnded | src/main/resources/howler.core.js:2085-2090 | the number of inactive sounds in the pool |
| Player.Howl.RemoveFromBack | src/main/resources/howler.core.js:2093-2106 | the pool becomes the drained pool |
| Player.Howl.Drain | src/main/resources/howler.core.js:2074-2107 | the pool becomes the drained pool; every sound dropped is ended, paused and without a live timeout |
| Player.Howl.RecycledPool | src/main/resources/howler.core.js:2288-2307 | giving an ended sound a new id never leaves an old timer entry or callback on it |
| Player.Howl.InactiveSound | src/main/resources/howler.core.js:2055-2069 | the sound handed out is the first ended one of the drained pool, or is new because none is left; afterwards at most `limit` sounds are ended; its id is new and it has no timer |
| Player.Howl.FindEnded | src/main/resources/howler.core.js:2060-2066 | the first ended sound of the pool, or nothing when none is ended |
| Player.Howl.NewSound | src/main/resources/howler.core.js:2214-2235 | a new sound joins the pool under a new id |
| Player.Howl.PlayFresh | src/main/resources/howler.core.js:785-876 | a sound from the pool plays its sprite from the top under a new id: from the sprite's offset, with a timer for its length, both in the sprite's milliseconds; every other sound is as it was, and the pool does not grow while it has an ended sound to give away and room to keep one |
| Player.Howl.PlayId | src/main/resources/howler.core.js:785-823 | `play(id)`: that sound makes the step unless it plays already; valid if and only if it is not a looping sound at or past its end |
| Player.Howl.Play | src/main/resources/howler.core.js:741-876 | all of `play`: which sound it resumes (the one named, or the only idle one), otherwise a fresh one on the sprite named or the default, played from the top of that sprite or, before loading, reserved for it; and when the call only lets the queue step |
| Player.Howl.PausedIsResumed | src/main/resources/howler.core.js:754-768 | pausing a sound makes it the one that `play()` resumes, if no other sound is idle |
| Player.Howl.NotResumed | src/main/resources/howler.core.js:754-768 | `play()` resumes no sound that has ended or plays, and none while two are idle |
| Player.Howl.DeferFresh | src/main/resources/howler.core.js:793-810 | a play before loading reserves a pool sound under a new id and queues that id |
| Player.Howl.DeferResumed | src/main/resources/howler.core.js:793-810 | a play by id before loading marks that sound as not ended and queues it |
| Player.Howl.QueueStaysSafe | src/main/resources/howler.core.js:812-819 | running one queued play leaves the rest of the queue as safe as it was, also when the same sound is queued twice |
| Player.Howl.LoadQueue | src/main/resources/howler.core.js:1925-1944 | running a queue of plays drops the ones whose sound already plays, runs the next one and leaves it at the head; no other sound changes and the group stays valid, if no queued play is of a looping sound at or past its end |
| Player.Howl.RunQueue | src/main/resources/howler.core.js:1925-1944 | the sound whose play is run plays afterwards if and only if it stood before its end; the queue and the stages of all sounds make one step of the model of the queue |
| Player.Howl.QueueRan | src/main/resources/howler.core.js:812-823 | running a queue of plays on the objects is exactly one step of that model: what is dropped, which stage turns, and whether a callback is left |
| Player.Howl.PlayStepping | src/main/resources/howler.core.js:812-819 | a play of a sound that already plays drops the head of the queue and runs what follows; what is left stays safe |
| Player.Howl.NextTask | src/main/resources/howler.core.js:1925-1944 | `_loadQueue()` in any state: a loaded group runs the next play, one that is loading puts it at the back again; no playing sound is touched |
| Player.Howl.PlayEmitted | src/main/resources/howler.core.js:1931-1935 | a 'play' event drops the head of the queue and runs what follows, leaving every playing sound untouched; with an empty queue it changes nothing |
| Player.Howl.TakeSound | src/main/resources/howler.core.js:2060-2069 | the ended sound found is recycled under a new id; without one a new sound is made |
| Player.Howl.PlayCallback | src/main/resources/howler.core.js:873-878 | the callback a play leaves, also on a group that is loading again: the queue steps once for the event and once more, exactly as the model of the queue says; pool and ids stay |
| Player.Howl.LoadDone | src/main/resources/howler.core.js:2490-2507 | the first load fixes the default sprite; a load that completes runs the queue once, as its model says, under the sprites it then has; ids and sounds stay |
| Player.Howl.Load | src/main/resources/howler.core.js:697-728 | back to loading with one more sound; a cached buffer loads at once |
| Player.Howl.Timeout | src/main/resources/howler.core.js:1951-1997 | a due timeout of a valid group leaves it valid and its sound exactly one step on, although the 'play' event of a looping sound first lets the queue step, before the sound is rewound; every other sound is as that step leaves it; a sound that does not loop is then ended, paused and without a timer |
| Player.Howl.Playing | src/main/resources/howler.core.js:1698-1706 | `playing(id)` |
| Player.Howl.Unload | src/main/resources/howler.core.js:1747-1801 | nothing of the group is left: no pool, no timer entry, no live timeout, and it is off the list of groups |
| PlayerRuns.OthersKept | src/main/resources/howler.core.js:2038-2049 | a step confined to one group leaves every other group valid and ids unique across groups |
| PlayerRuns.Tick | src/main/resources/howler.core.js:1680-1683 | time passing keeps the timer discipline of every sound of every group: a deadline still ahead stays exactly right, and one that comes finds the playhead at the end or past it |
| PlayerRuns.Act | src/main/resources/howler.core.js:741-1801 | each action of a run does to its group what the operation it names promises: which sounds make which step, which play resumes or starts what, what the queue comes to |
| PlayerRuns.Perform | src/main/resources/howler.core.js:741-1801 | one step of a run: within the regime it does that to the group it names, and leaves every other group and the clock alone |
| PlayerRuns.Run | src/main/resources/howler.core.js:1986-2028 | over every run of any number of groups: a playing sound has exactly one live timeout, whose deadline, while it is ahead, is exactly when the playhead reaches the sprite end; every `_endTimers` entry is keyed by the id of a pool sound that plays and is bound to that very sound; ids are above 1000 and at most the counter, no two live sounds share one, and every queued id has been issued |
| PlayerRuns.RunToTheEnd | src/main/resources/howler.core.js:873-878 | on a loaded group, after one run of its queue and then all callbacks, those they leave included: every queued sound plays if and only if the condition of `PlayQueue.EveryPlayStarts` held before, and then the queue is empty |
| PlayerRuns.LoadToTheEnd | src/main/resources/howler.core.js:2490-2507 | the same from the moment loading completes, with the sprites that fixes |
| PlayQueue.PlayTurns | src/main/resources/howler.core.js:826-876 | a play starts a sound before its end and rewinds one at its end, which then stands before it unless its sprite leaves no room |
| PlayQueue.EveryPlayStarts | src/main/resources/howler.core.js:1925-1944 | for any queue and any callbacks left over: one run of the queue and then all callbacks make every queued sound play, and empty the queue, if and only if going through the queue once, in turns of one run and two, meets no missing or spent sound, and a sound at its end only where it is run twice or, if a callback is left to drop it, queued again |
| PlayQueue.ReadyIsEnough | src/main/resources/howler.core.js:1925-1944 | it holds when every queued sound exists and stands before its end or plays |
| PlayQueue.MissingNeverPlays | src/main/resources/howler.core.js:777-783 | it fails when a queued sound is missing or can only stand at its end |
| PlayQueue.EndedSoundStarts | src/main/resources/howler.core.js:847-850 | standing before the end is not the condition: behind a play that starts, a sound queued at its end starts too; in front it does not |
| Tasks.Howl.LoadQueue | src/main/resources/howler.core.js:1925-1944 | `_loadQueue(event)`: an event of the first task drops it and runs the next; without an event the first task runs and stays |
| Tasks.Howl.Perform | src/main/resources/howler.core.js:1013-1068 | volume, mute, rate, seek, pause and stop: the effect id by id, with the event (and so the rest of the queue) after each id |
| Tasks.Howl.Request | src/main/resources/howler.core.js:1240-1249 | a public call is queued while the group is loading or locked, carried out otherwise; a call that only reads does neither; on a loaded group the addressed sounds end up as `Tasks.DirectCallCarried` says |
| Tasks.Howl.OnLoad | src/main/resources/howler.core.js:2501-2506 | loading completes and the queue runs |
| Tasks.DirectCallCarried | src/main/resources/howler.core.js:1257-1278 | what each call is for, sound by sound: the volume is the one given, the sound is muted or not, plays at the rate given from where it is, stands at the position given, is paused where it was, or is rewound, paused and ended; the end timer keeps agreeing, every sound not addressed is as it was, and without an id the group takes the value too |
| Tasks.QueuedCallCarried | src/main/resources/howler.core.js:1240-1249 | a call made while the group loads waits, and is carried out in the same sense once it has loaded |
| Tasks.CallsThatRead | src/main/resources/howler.core.js:1235-1249 | a volume outside [0, 1] and a seek on a group without sounds change nothing and are not queued; every other call made while the group loads is |
| Tasks.QueueNests | src/main/resources/howler.core.js:1894-1944 | a queue whose calls all emit empties in one go, and comes to: first call on its first sound, then the rest of the queue, then the first call on its other sounds |
| Tasks.NestedIsDirect | src/main/resources/howler.core.js:1257-1278 | that nesting leaves the plain state if every call but the last works on one sound |
| Tasks.OvertakenUnlessSingle | src/main/resources/howler.core.js:1257-1278 | the queue has the effects of its calls, sound by sound, in the order the calls were made if and only if every call but the last works on one sound |
| Tasks.DeferredEqualsDirect | src/main/resources/howler.core.js:1913-1944 | calls made while loading, each on existing sounds, leave the same group, with the same effects in the same order, as the same calls made on the loaded group, if and only if every call but the last works on exactly one sound; in any case each is carried out once, in call order, and the queue is empty |
| Tasks.QueueStops | src/main/resources/howler.core.js:1925-1944 | for calls on one sound each, the whole outcome: the queue runs up to and including the first call that emits nothing and stops there, with that call at its head |
| Tasks.QueueLeaves | src/main/resources/howler.core.js:1925-1944 | for any queue, with calls on any number of sounds, also none: exactly which calls are left on it when it stops, from the kinds of its calls and how many events each has left |
| Tasks.QueueSettles | src/main/resources/howler.core.js:1925-1944 | so one run empties any queue if and only if every call either speaks or is dropped by an event that the innermost call of its kind still in progress has left |
| Tasks.WaitingIsRest | src/main/resources/howler.core.js:1925-1944 | what is left are the last calls of the queue, and the first of them does not speak |
| Tasks.StaysStopped | src/main/resources/howler.core.js:1925-1944 | where any queue stops it stays: running it again changes no sound and drops nothing |
| Tasks.SilentCallDropped | src/main/resources/howler.core.js:1257-1278 | a volume of a missing sound, which never speaks, is dropped by the second event of a group volume before it; a mute of one is not |
| Tasks.QueueEmpties | src/main/resources/howler.core.js:1925-1944 | the corollary for calls on one sound each: the queue empties if and only if no volume, mute, rate, seek or stop addresses a missing sound and no seek is negative |
| Tasks.StoppedUntilItsEvent | src/main/resources/howler.core.js:1925-1944 | a queue stopped like that runs its head again to no effect, and goes on exactly at the next event of the head's own kind |
| Tasks.GroupCallOvertaken | src/main/resources/howler.core.js:1257-1278 | a queued group call over two sounds is overtaken by the next call, whose effect is lost |
| Events.Emitter.On | src/main/resources/howler.core.js:1817-1826 | an entry is added at the back |
| Events.Emitter.Off | src/main/resources/howler.core.js:1835-1864 | with a callback, the first entry with it and this id is removed and no other; with an id alone, the first entry with that id; with neither, the list is cleared |
| Events.Emitter.Emit | src/main/resources/howler.core.js:1894-1911 | the walk from the back: who is scheduled, in which order, and what is left; every index it reads is in range whatever `off` removes. With distinct pairs: a listener for every sound, or for sound 0, is scheduled once by any emission, one for another sound once if and only if the event is for that sound or is 'load', and it is removed if and only if it is also `once` |
| Events.WalkLeaves | src/main/resources/howler.core.js:1899-1910 | for every list, also with duplicates: an entry survives if it is not addressed, or neither it nor a later entry with the same callback and id is `once`; survivors keep their order |
| Events.WalkFires | src/main/resources/howler.core.js:1899-1910 | for every list: each callback is scheduled exactly as often as it is registered among the entries addressed |
| Events.EmissionExact | src/main/resources/howler.core.js:1899-1910 | what is left is exactly the entries not addressed or not `once` if and only if no addressed lasting entry is followed by a `once` entry with the same callback and id |
| Events.DistinctEmission | src/main/resources/howler.core.js:1899-1910 | with distinct (callback, id) pairs each addressed listener is scheduled once, from the back, and exactly the `once` ones go |
| Events.EachListener | src/main/resources/howler.core.js:1899-1910 | the same of the walk itself, listener by listener |
| Events.WaitingAllFire | src/main/resources/howler.core.js:889-890 | all playbacks waiting with `once` for 'resume' are scheduled, latest first, and none stays registered |
| Events.OnceTakesALastingTwin | src/main/resources/howler.core.js:1848-1853 | registering a callback and then the same one with `once`: one event removes both |
| Suspension.Controller.constructor | src/main/resources/howler.core.js:201-208 | the protocol starts with the context running or suspended, and the suspend timer armed |
| Suspension.Controller.Search | src/main/resources/howler.core.js:468-477 | whether any pooled sound of a registered Web Audio group plays |
| Suspension.Controller.AutoSuspend | src/main/resources/howler.core.js:461-505 | `_autoSuspend`: nothing while something plays, otherwise the one timer is replaced |
| Suspension.Controller.AutoResume | src/main/resources/howler.core.js:514-543 | `_autoResume`, with all of its branches |
| Suspension.Controller.Play | src/main/resources/howler.core.js:820-892 | `play` on the protocol: at its end it rests, or goes round again when it loops; otherwise it is started, or locked and waiting for 'resume' |
| Suspension.Controller.Start | src/main/resources/howler.core.js:856-866 | `playWebAudio` drops the lock and starts its sound |
| Suspension.Controller.OnTimer | src/main/resources/howler.core.js:484-503 | the suspend timer fires: the context is suspending |
| Suspension.Controller.OnSuspended | src/main/resources/howler.core.js:493-500 | the suspension settles, and is followed by a resume if one was asked for meanwhile |
| Suspension.Controller.OnResumed | src/main/resources/howler.core.js:525-532 | the resume settles and every registered group emits 'resume' |
| Suspension.Controller.EmitResume | src/main/resources/howler.core.js:1894-1911 | every waiting start of the group is scheduled, latest first, and its listeners are gone |
| SuspensionRuns.InvKept | src/main/resources/howler.core.js:461-546 | every step in every order keeps: whoever waits has a resume pending or a suspension that will ask for one; a locked registered group has a start registered or scheduled; the only live suspend timer is the one remembered |
| SuspensionRuns.NoStaleWakeUp | src/main/resources/howler.core.js:493-500 | a wake-up asked for while a suspension is under way is used up by it: the next suspension is followed by no resume that was not asked for during it |
| SuspensionRuns.TimerLiveKept | src/main/resources/howler.core.js:484-492 | the timer remembered is one the browser still holds, except exactly after one fires while auto-suspend is off |
| SuspensionRuns.AutoSuspendOff | src/main/resources/howler.core.js:461-490 | while auto-suspend is off no step starts to suspend the context or arms a timer |
| SuspensionRuns.ResumeReaches | src/main/resources/howler.core.js:525-532 | 'resume' makes the waiting starts of registered groups due, and no other's |
| SuspensionRuns.UnloadedIsGone | src/main/resources/howler.core.js:1747-1804 | an unloaded group's sounds can be played no more, none is heard, and no 'resume' reaches it |
| SuspensionRuns.DroppedIsGone | src/main/resources/howler.core.js:2085-2107 | a drained sound is no longer looked at and can no longer be played |
| SuspensionRuns.InitialInv | src/main/resources/howler.core.js:201-208 | the invariants hold before the first group is made |
| SuspensionRuns.NoLostWakeUp | src/main/resources/howler.core.js:484-543 | the same over every run |
| SuspensionRuns.CompletionsEnd | src/main/resources/howler.core.js:493-532 | whatever the browser holds settles in a bounded number of steps, in any order |
| SuspensionRuns.SettledIsUnlocked | src/main/resources/howler.core.js:856-890 | once nothing is left to settle no registered group is locked and nobody waits |
| SuspensionRuns.LockedCanUnlock | src/main/resources/howler.core.js:886-892 | a registered, locked group can always be unlocked by at most three completions that are already pending |
| SuspensionCalm.QuiescentKept | src/main/resources/howler.core.js:468-483 | a step leaves a suspend timer live under a playing sound if and only if it is a deferred start that comes while the timer runs |
| SuspensionCalm.NoTimerUnderSound | src/main/resources/howler.core.js:468-483 | in a run whose plays all find the context running and uninterrupted, no suspend timer is live while a sound plays, and at most one is live at all |
| SuspensionCalm.CalmKept | src/main/resources/howler.core.js:461-546 | a step keeps the context running, with no suspend timer live and no suspension unsettled, under whatever plays, if and only if it is not one of two starts: a deferred one while a timer is live or a suspension unsettled, or a play that finds the context running while a suspension is unsettled |
| SuspensionCalm.CalmUnlessBadStart | src/main/resources/howler.core.js:461-546 | over whole runs: that holds in every state if and only if no step of the run is such a start |
| SuspensionCalm.BadStartSuspends | src/main/resources/howler.core.js:484-500 | after such a start at most one step of the browser leaves the context not running under the playing sound |
| SuspensionCalm.NeverSuspendsPlayingSound | src/main/resources/howler.core.js:468-505 | in a run whose plays all find the context running, uninterrupted and with no suspension unsettled, the context runs whenever a sound plays, and nothing is under way to suspend it |
| SuspensionCalm.SuspendsUnderDeferredPlay | src/main/resources/howler.core.js:821-890 | a run of eight steps in which the context is being suspended under a sound that has just started |
| SuspensionCalm.SuspendsUnderPromptPlay | src/main/resources/howler.core.js:484-532 | a run in which every play finds the context running, and a suspension settles under the last one all the same |
| SuspensionStarts.StartsOnceKept | src/main/resources/howler.core.js:882-892 | every start to come stays the only one of a paused sound if and only if the step is not a play, before its end, of a sound still to be started; a start that runs then finds its sound paused |
| SuspensionStarts.StartsOnceUnlessPlayedAgain | src/main/resources/howler.core.js:882-892 | over whole runs, every start to come stays the only one of a paused sound if and only if no sound still to be started is played again |
| SuspensionStarts.LateStartUnderPlayingSound | src/main/resources/howler.core.js:856-892 | a run in which two plays wait, the first start drops the lock for both, the other sound is played once more, and its late start finds it playing |
| Fade.TickInBounds | src/main/resources/howler.core.js:1373-1382 | whatever the gap, a tick stays in [0, 1] and does not pass the target; from a whole hundredth it does not turn back |
| Fade.FadeInBounds | src/main/resources/howler.core.js:1369-1404 | over a whole fade, also one from a volume to itself: always in bounds, never past the target, and after the first tick only toward it |
| Fade.TickGains | src/main/resources/howler.core.js:1369-1382 | a gap of more than half a step gains at least one hundredth, or arrives, despite the rounding |
| Fade.FadeTerminates | src/main/resources/howler.core.js:1356-1404 | a fade between two different volumes ends exactly on its target within the hundredths between them, at most 100 ticks |
| Fade.FadeCanEnd | src/main/resources/howler.core.js:1397-1403 | a fade can end if and only if its two volumes differ |
| Fade.TickStalls | src/main/resources/howler.core.js:1376-1382 | the exact gap below which a tick makes no progress; half a hundredth is enough going up and not going down |
| Fade.Clamp | src/main/resources/howler.core.js:1311-1314 | a volume in [0, 1] stays, one outside goes to the nearer end |
| Fade.StepLen | src/main/resources/howler.core.js:1358-1362 | the interval lets a hundredth of volume pass per tick, and is never below four milliseconds |
| Fade.Fader.SetVolume | src/main/resources/howler.core.js:1240-1282 | `volume(v, id)` takes effect if and only if no fade is running or v is the fade target; out of range it only reads |
| Fade.Fader.StopFade | src/main/resources/howler.core.js:1413-1431 | a running fade ends at its target |
| Fade.Fader.Fade | src/main/resources/howler.core.js:1310-1345 | a fade starts from its clamped volume, after stopping the one before; a muted sound keeps the old target until the first tick |
| Fade.Fader.Tick | src/main/resources/howler.core.js:1369-1404 | one tick: the new volume, the group volume, and the end of the fade exactly on its target |
| AudioNodes.Controller.Obtain | src/main/resources/howler.core.js:422-439 | the last free node, or a new one that is not known to be unlocked |
| AudioNodes.Controller.Release | src/main/resources/howler.core.js:445-454 | only an unlocked node joins the free pool |
| AudioNodes.Controller.Refill | src/main/resources/howler.core.js:334-348 | the refill loop ends with at least `html5PoolSize` free nodes, unless a constructor call fails, and then has kept exactly what it made before and knows that there is no audio |
| AudioNodes.Controller.Unlock | src/main/resources/howler.core.js:327-366 | a touch keeps ownership and leaves every node of a registered group unlocked |
| AudioNodes.Controller.CreateSound | src/main/resources/howler.core.js:2244-2279 | a new sound takes the last free node or a new one; without audio it gets none |
| AudioNodes.Controller.LetGoEach | src/main/resources/howler.core.js:1753-1781 | the loop of `unload` releases one node after another and stops at the first sound that never got one |
| AudioNodes.Controller.Unload | src/main/resources/howler.core.js:1750-1781 | unload returns exactly the unlocked nodes of its sounds, in order; a sound without a node makes it stop there with everything else in place |
| AudioNodes.Perform | src/main/resources/howler.core.js:334-454 | one step of a run does what the operation it names promises to the pool of its group and to the free nodes |
| AudioNodes.Run | src/main/resources/howler.core.js:334-454 | over every run: no node is held by two sounds, also drained ones, none is both held and free, and the free pool has no duplicates and only unlocked nodes |
| BufferCache.Library.Load | src/main/resources/howler.core.js:656-728 | the first candidate that fits is picked, unless it is empty; if its buffer is cached the group has loaded at once with the length cached and waits for no download, otherwise it waits for one more; without a candidate a picked URL becomes a list again and nothing else changes |
| BufferCache.Library.OnDecoded | src/main/resources/howler.core.js:2468-2496 | a decoded buffer is cached, with its length, only for a group that still has sounds; the group has loaded, and takes that length if it had none |
| BufferCache.Library.Unload | src/main/resources/howler.core.js:1783-1804 | the group leaves the list, and its buffer goes unless another group counts as using it |
| BufferCache.RequestsBalance | src/main/resources/howler.core.js:2468-2475 | a group waits for one download more after a load that missed the cache, and for one less after its answer |
| BufferCache.OwnListsKept | src/main/resources/howler.core.js:667-669 | a list that `load` makes of a URL is no other group's list |
| BufferCache.PickedRecognises | src/main/resources/howler.core.js:1792 | a group that has picked its URL recognises every other group with the same buffer |
| BufferCache.BufferKept | src/main/resources/howler.core.js:1780-1796 | every step leaves each registered loaded group its buffer, except exactly the unload of a group whose list of candidates, joined with commas, is the URL of a loaded group it does not list |
| BufferCache.KeptUnlessColliding | src/main/resources/howler.core.js:1780-1796 | over whole runs: every loaded group has its buffer in every state if and only if that one kind of unload never happens |
| BufferCache.BuffersKeptThroughout | src/main/resources/howler.core.js:1780-1796 | so it holds over every run whose unloads are of groups that picked a URL |
| BufferCache.CommaCollision | src/main/resources/howler.core.js:1792-1800 | a run from the empty store: one group loads "x.mp3,y.mp3", another lists "x.mp3" and "y.mp3", and its unload takes the first one's buffer |
| Client.Toggle | src/main/resources/websocket.js:26-27 | on a loaded group a message flips `playing(id)` if and only if the sound plays or stands before its end |
| Client.Open | src/main/resources/websocket.js:30-34 | a new name gets a group that has loaded twice and a sound under an id never issued before, playing at once if the buffer was cached and queued otherwise |
| Client.Page.OnMessage | src/main/resources/websocket.js:22-39 | both cases; what is known stays known |
| Client.Page.On | src/main/resources/websocket.js:22-39 | decoding, callbacks and end timers of a known group keep its sound in the pool |
| Client.Perform | src/main/resources/websocket.js:22-39 | one step of a run: a message toggles the known sound or opens a group, a happening does what it does to that group |
| Client.Run | src/main/resources/websocket.js:22-39 | over every run both maps have the same keys, every name keeps its group and id, and the id stays in that group's pool |

## Left out

- Player.Howl.Play: the context is taken to run, so no play waits for 'resume' here; that protocol is `Suspension`, on its own view of the groups. Also not modelled: `play(0)`, which the code takes for no id, and an unknown sprite played before loading.
- Player.Howl.Loop: setting `loop` on a sound that plays while its group is being loaded again, where the code queues the restart.
- Player.Howl.LoadQueue: in `Player` the queue holds plays only; the other calls are queued in `Tasks`, where no play is queued and no fade runs. A queued play of a looping sound at or past its end, which would meet the timer exception inside the recursion, is excluded (`QueueSafe`); the same goes for `Load`, `LoadDone`, `PlayCallback` and `Timeout`, which run the queue.
- Player.Howl.PlaySound: when it ends a looping sound at once (the timer exception), the 'play' event that `_ended` emits does not step the queue here.
- Player.Howl.Pause: in `Player` the calls other than `play` are made on loaded groups; before loading they are queued as in `Tasks`.
- Player.Howl.Stop: as `Player.Howl.Pause`, on loaded groups only.
- Player.Howl.Seek: as `Player.Howl.Pause`, on loaded groups only.
- PlayerRuns.Run: a run makes the calls of the running regime only: calls other than `play` and `loop` on loaded groups, and no start of a looping sound at or past its end, by a call or by the queue. Starts that wait for 'resume' are not steps of these runs; what such a start does to its sound is `Playhead.LateStartTimer`, and when it finds it playing is `SuspensionStarts.StartsOnceKept`.
- PlayerRuns.LoadToTheEnd: the callbacks run one after the other with nothing else in between, so no sound ends and no call is made among them.
- Player.Howl.constructor: a group that brings sprites brings `__default` too; the code would throw on a later `play()` without it.
- Player.Howl.Rate: on loaded groups only, as `Player.Howl.Pause`; rate 0 is excluded, where the code would arm a timeout of Infinity.
- Playhead.TimerKept: nonnegative sprite offsets and lengths and nonzero rates are assumed, and the audio clock and the timeouts run on one clock, as they do while the context runs.
- Fade.Fader.Fade: a fade of length 0 is excluded, because the code divides by it.
- Client.Page.OnMessage: a cached buffer is taken to have positive length; with none `play` returns nothing and the client would store no id. Load errors and the answer sent back over the socket are left out.
- BufferCache.Library.Load: which URLs a codec can play is a parameter; formats given per index are not modelled.
- Tasks.Howl.Perform: volumes and rates are numbers; getters, which only read, are not modelled beyond `OnlyReads`.
- Events.Emitter.Off: one list of listeners; the call without an event, which clears the lists of every event, is that step on each list.
- HTML5 playback: the deferred listener contains a stray identifier that throws before playback starts, and the rest depends on the browser; only the ownership of its nodes is modelled.
- Floating-point rounding of times, positions and volumes, apart from the fade's own rounding to two decimals.
- Guessing from the number of arguments whether a number is an id or a value: calls take the value and an optional id.
- Rejected `ctx.resume()` promises, replacement of the context in `Howler.unload`, the fallback to HTML5 when a download fails, and user calls to `off` on 'resume'.
- Codec detection, user-agent checks, downloading and decoding, gain nodes, and the document side of unlocking.
- The native side of the repository: each JNI wrapper forwards one call, and the VirtualBox, browser and screen-capture code drives systems that are not here.
