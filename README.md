# timeline.js — a Dafny model of the animation timeline

timeline.js animates properties of JavaScript objects over time.

- A **Timeline** holds a list of tracks and a clock: `time`, `totalTime`, `loopCount`, `loopMode` and `playing`.
  Its `update(deltaTime)` advances the clock, applies the loop policy, and runs `applyValues`, the per-tick pass over every track.
- A **keyframe track** holds, per property of its target object, a list of keys (keyframe entries).
  A key is a timed transition of one property, with an end value and an easing name such as `"Linear.EaseNone"`.
  A property may instead *follow* a number or position track, whose recorded samples then drive it.
- **Number and position tracks** record readings of some input into sample arrays while the timeline plays.
- **Anim** is a fluent builder:
  - `to(delay, properties, duration, easing)` appends a group of timed entries;
  - `onStart`/`onEnd` give the last group a callback that fires once for the whole group.

The model has four modules:

- `Keys` (keys.dfy) — values, keys, and the rule by which one key is evaluated at a time.
  A key that has begun captures its start value from the target, reading a `'px'` string as its number.
  Each tick it writes the interpolated, eased value back.
  It is marked ended once the time reaches its end.
- `Tracks` (tracks.dfy) — the keyframe track of `src/tracks/keyframe.js` as a class, `Track`.
  - Its fields are those the source updates.
  - Its methods are `keyframe`, `rebuildKeysMapProperty`, `setupKeysForFollowType`, `updateTrackEnd` and the follow branches of `updateFollowingTrack`.
  - It also has the track's share of `applyValues`: the recording cursor rule and the evaluation of every property in `for..in` order.
  - Each method is proved against a function on a value snapshot of the track (`TrackState`), and the properties are proved about those functions.
- `Timelines` (timeline.dfy) — the clock rules of `update` as functions, and the class `Timeline` with `loop`, `stop`, `pause`, `play`, `update`, `findAnimationEnd`, `restartTracks` and `applyValues`.
  - Every method states its new clock and track states through pure specifications: `Tick`, `TickAll`, `RestartAll`, `ApplyAll` and `UpdateAll`.
  - The track list after a pass is `Survivors(tracks, removed)`: the tracks whose flag is off, in order.
- `Anims` (anim.dfy) — `Anim.js`: the positional argument reading of `to()`, the group builder, and the shared fire-once guard of `onStart`/`onEnd`.

### Inputs and parameters

- Easing curves are a parameter `ease(family, variant, progress)`. Only the split of the easing name at its first dot is modelled.
- The readings a recording track takes of its input are a parameter `readings`, one per track.
- JavaScript numbers are `Num = Finite(real) | NaN`; NaN also stands for `undefined` taking part in arithmetic.
- A target property value is `Plain(n)` or `Px(n)` (a `'px'` string).

### Where the model follows the code over the documentation

- **Loop mode 1.** The doc comment of `loop` (src/timeline.js:29-38) says loop mode 1 plays once and stops.
  The code compares `loopCount <= loopMode` (src/timeline.js:91), so the first crossing of the end restarts and only the second stops.
  The model follows the code; `LoopOnceRestartsOnce` states it.
- **When a track is complete.** A track is removed when the *eased* progress of one of its keys equals exactly 1 (src/timeline.js:315).
  It is not enough for the time to have passed the key's end.

## Model

| member | source | states |
|---|---|---|
| Keys.IndexOfDot | src/timeline.js:296-297 | `indexOf('.')`: -1 exactly when there is no dot; otherwise the index of a dot with none before it |
| Keys.SplitEasing | src/timeline.js:296-297 | the family and variant of an easing name: they rejoin with a dot into the name, and the family has no dot; with no dot the family is empty and the variant is the whole name |
| Keys.SplitAtFirstDot | src/timeline.js:296-297 | a name made as `family + "." + variant`, where the family has no dot, splits back into exactly that family and variant |
| Keys.SplitDefaultEasing | src/tracks/keyframe.js:32-34 | the default easing `"Linear.EaseNone"` addresses family `Linear`, variant `EaseNone` |
| Keys.Clamp01 | src/timeline.js:299 | the result lies in [0, 1]; it is the input inside [0, 1], 1 above it and 0 below it |
| Keys.Progress | src/timeline.js:294-299 | a key's progress (elapsed over duration, 1 for a zero duration, then clamped) always lies in [0, 1], and a zero-duration key has progress 1 |
| Keys.ProgressWithin | src/timeline.js:294-299 | progress is 0 up to the start and 1 from the end; in between it is the elapsed fraction of the duration |
| Keys.Lerp | src/timeline.js:302 | interpolation is finite exactly when both ends are; it gives the start value at 0 and the end value at 1 |
| Keys.Activate | src/timeline.js:282-292 | definition of the start-value capture; its properties are stated by `EvalKeyCapture` and `ActivateKeepsEased` |
| Keys.Eased | src/timeline.js:294-300 | definition of the eased progress; its properties are stated by `EvalKeyWrites`, `EvalKeyComplete` and `ZeroDurationJumpsToEnd` |
| Keys.Written | src/timeline.js:302-305 | definition of the written value; its properties are stated by `EvalKeyWrites` and `Halfway` |
| Keys.EvalKey | src/timeline.js:276-315 | evaluating a key changes only its flags, start value and unit; it never drops a target property; a key not yet begun, or already ended, is returned unchanged |
| Keys.EvalKeySkipsInactive | src/timeline.js:278-280 | before its start time, or once ended, a key changes nothing: not the key, not the target, and it does not complete |
| Keys.EvalKeyEffect | src/timeline.js:282-313 | an evaluated key is started; it is ended exactly when the time has reached its end; only its own property of the target is written |
| Keys.EvalKeyCapture | src/timeline.js:282-292 | the start value is captured only on the first evaluation, from the target's current value, and a `'px'` string sets the unit; later evaluations keep them |
| Keys.EvalKeyWrites | src/timeline.js:299-315 | the target property becomes the start value plus the eased share of the change, with the unit re-appended; the key completes exactly when the eased progress is 1 |
| Keys.EvalKeyEndedImpliesStarted | src/timeline.js:278-313 | evaluation keeps the invariant "ended implies started" |
| Keys.ZeroDurationJumpsToEnd | src/timeline.js:294-315 | under an easing that fixes 1, a zero-duration key ends, completes and writes its end value at once |
| Keys.Halfway | src/timeline.js:294-305 | a concrete case: from 0 to 100 over [0, 2], at time 1 under an easing that fixes 0.5, the target holds 50 |
| Keys.EvalKeys | src/timeline.js:276-321 | evaluating a key list keeps its length and each key's shape; keys not evaluated are unchanged; target properties are never dropped |
| Keys.EvalKeyComplete | src/timeline.js:294-315 | a key's evaluation reports completion exactly when the key is evaluated (begun, not ended) and the eased progress of the key as it stood before the call is 1; capturing the start value does not change it |
| Keys.EvalKeysComplete | src/timeline.js:275-321 | a list's pass reports completion exactly when some key of the list, as it stood before the pass, is evaluated and reaches eased progress 1, whatever the target |
| Keys.EvalKeysEndedImpliesStarted | src/timeline.js:276-321 | evaluating a whole list keeps "ended implies started" for every key |
| Keys.EvaluateKeys | src/timeline.js:276-321 | the key-by-key loop computes exactly the list evaluation `EvalKeys` |
| Keys.ClearFlagsFacts | src/timeline.js:145-148 | clearing leaves every key pending and otherwise unchanged; clearing twice is clearing once |
| Keys.ClearKeyFlags | src/timeline.js:145-148 | the in-place loop computes exactly `ClearFlags` |
| Keys.MaxOf | src/timeline.js:107-119 | the running maximum from 0 is non-negative and bounds every value; it is 0 or one of the values |
| Tracks.EasingOr | src/tracks/keyframe.js:32-34 | a given easing is kept, and an empty one becomes the default `Linear.EaseNone` |
| Tracks.AddKey | src/tracks/keyframe.js:56-67 | definition of one key's push, creating the entry first; its properties are stated by `AddKeyValid` and `AddKeysAppends` |
| Tracks.AddKeys | src/tracks/keyframe.js:36-68 | definition of the `for..in` loop of `keyframe()`; its properties are stated by `AddKeysFrame`, `AddKeysAppends`, `AddKeysValid`, `AddKeysSorted` and `LoweredEndUnsorts` |
| Tracks.AddKeysFrame | src/tracks/keyframe.js:36-68 | `keyframe()` adds exactly the new property names; other properties are untouched; follow settings are kept; existing key lists only grow at the end |
| Tracks.AddKeysAppends | src/tracks/keyframe.js:36-68 | each property gets exactly one new key at the end of its list, from the current end to the end plus the duration, with the given value and easing; a new property first gets an empty entry |
| Tracks.AddKeyValid | src/tracks/keyframe.js:56-67 | adding one key keeps the keys map valid: names are distinct, listed in insertion order, and entries are well formed |
| Tracks.AddKeysValid | src/tracks/keyframe.js:36-68 | `keyframe()` keeps the keys map valid |
| Tracks.AddKeysSorted | src/tracks/keyframe.js:49-51 | with a non-negative duration, and provided every existing key ended by the old track end, every property's keys stay sorted by start time and end by the new track end (gaps between keys are allowed) |
| Tracks.LoweredEndUnsorts | src/tracks/keyframe.js:277-294 | the proviso is not kept by the track: after `keyframe({a, b}, 3)`, `keyframe({a}, 2)`, `keyframe({a}, 1)`, the end of `b` is 3, and `keyframe({a}, 1)` from that end leaves `a`'s keys starting at 0, 3, 5, 3, not sorted |
| Tracks.PushKeys | src/tracks/keyframe.js:36-68 | the `for..in` loop computes exactly `AddKeys` |
| Tracks.RestartState | src/timeline.js:141-160 | definition of restarting one track; its properties are stated by `RestartStateFacts` |
| Tracks.RestartEntryFacts | src/timeline.js:144-155 | restarting a property clears the flags of its keys and, when following, of its follow keys; nothing else changes; restarting is idempotent |
| Tracks.RestartStateFacts | src/timeline.js:140-161 | restarting a track keeps it valid and keeps its properties; every key and follow key becomes pending; a recording track's cursor returns to 0; nothing else changes; restarting twice is restarting once |
| Tracks.ClearAllFlags | src/timeline.js:144-156 | the loop over the properties computes exactly `RestartMap` |
| Tracks.IgnoreKeysFollow | src/tracks/keyframe.js:201-238 | definition of the 'ignoreKeys' follow keys; its properties are stated by `IgnoreKeysFollowShape` and `SetupIgnoreKeys` |
| Tracks.IgnoreKeysFollowShape | src/tracks/keyframe.js:185-239 | 'ignoreKeys' makes one key per present sample, back to back from 0 with one sample period each, holding that sample |
| Tracks.SampleKeys | src/tracks/keyframe.js:186-238 | the `forEach` loop computes exactly `IgnoreKeysFollow`, and the end reached is one period per key |
| Tracks.ReadSample | src/tracks/keyframe.js:263-264 | reading a sample array is finite exactly at an index inside the array that holds a value, and then it is that value |
| Tracks.EndIndex | src/tracks/keyframe.js:257-261 | the end index is `ceil(end * rate)`, replaced by `length - 1` only when it exceeds the length |
| Tracks.UseValuesEndAtLength | src/tracks/keyframe.js:257-264 | an end index equal to the length is not clamped, so the key reads an undefined end value |
| Tracks.WithSample | src/tracks/keyframe.js:256-264 | definition of one key's 'useValues' rewrite; its properties are stated by `ReadSample`, `EndIndex`, `UseValuesEndAtLength` and `SetupUseValues` |
| Tracks.WithSampleValues | src/tracks/keyframe.js:253-265 | definition of 'useValues' over a list, one `WithSample` per key; its properties are stated by `SetupUseValues` and `ReadSampleValues` |
| Tracks.ReadSampleValues | src/tracks/keyframe.js:253-265 | the `forEach` loop computes exactly `WithSampleValues` |
| Tracks.SetupState | src/tracks/keyframe.js:177-272 | the follow set-up keeps the property names and the selected property |
| Tracks.SetupStateValid | src/tracks/keyframe.js:177-272 | the set-up keeps the track valid, records the old end, and touches no other property; an unknown follow type changes nothing else |
| Tracks.SetupIgnoreKeys | src/tracks/keyframe.js:185-239 | 'ignoreKeys' keeps the authored keys; the follow keys become one key per present sample; the track end becomes the number of keys times the period |
| Tracks.SetupUseValues | src/tracks/keyframe.js:242-267 | 'useValues' makes the follow keys the very keys of the property, each keeping its timing; start and end values come from the samples at its start and end indices; the end is unchanged |
| Tracks.PropertyEnd | src/tracks/keyframe.js:278-293 | definition of the end `updateTrackEnd` computes; its properties are stated by `PropertyEndBounds` and `LoweredEndUnsorts` |
| Tracks.Unfollowed | src/tracks/keyframe.js:125-128 | definition of the 'noFollow' reset of an entry; its effect is stated by `Track.NoFollow` |
| Tracks.PropertyEndBounds | src/tracks/keyframe.js:277-294 | the end of a property is at least every live key's end, and is 0 or one of them |
| Tracks.Store | src/timeline.js:250-256 | an array store writes the index and changes no other element; past the end it grows the array with holes |
| Tracks.RecordStep | src/timeline.js:239-263 | definition of the recording step; its properties are stated by `RecordStepFacts` |
| Tracks.RecordStepFacts | src/timeline.js:239-262 | a cursor past the timeline end wraps to 0; a cursor at or after the time stores the reading at index `floor(nextTick / sampleRate)`; otherwise the cursor moves on by one period; only recording fields change |
| Tracks.WriteBack | src/timeline.js:268-274 | an evaluated list is written into the list it came from; the follow settings are kept; the list stays well formed |
| Tracks.EvalProps | src/timeline.js:268-321 | evaluating the properties in order keeps the property set and leaves unlisted properties alone; entries stay well formed; no target property is dropped |
| Tracks.EvalPropsEndedImpliesStarted | src/timeline.js:268-311 | a whole track's pass keeps "ended implies started" for every key |
| Tracks.EvaluateAll | src/timeline.js:268-321 | the loop over properties computes exactly `EvalProps` |
| Tracks.StepState | src/timeline.js:236-321 | one track's step keeps it valid, keeps its kind, end and property order; a number or position track never completes |
| Tracks.StepStateKeepsIdle | src/timeline.js:236-280 | a number or position track's keys and target are untouched; a keyframe track's recording fields are untouched, and every key the pass does not evaluate (not begun, or ended) stays as it was at its place in its live list |
| Tracks.EvalPropsKeepsUnevaluated | src/timeline.js:268-280 | a track's property pass keeps every property and the length of its live list, and leaves each key it does not evaluate unchanged |
| Tracks.EvalPropsComplete | src/timeline.js:268-321 | a track's property pass completes exactly when some listed property has a live key, as it stood before the pass, that is evaluated and reaches eased progress 1 |
| Tracks.StepStateComplete | src/timeline.js:236-321 | one track's step reports a completion exactly for a keyframe track with such a key; never for a number or position track |
| Tracks.Track.KeyframeTrack | src/tracks/keyframe.js:8-23 | a new keyframe track is valid and empty, ends at 0, follows along x and has no selected property |
| Tracks.Track.Keyframe | src/tracks/keyframe.js:31-73 | `keyframe()` adds keys as `AddKeys` says, with the default easing when none is given; the end grows by the duration once |
| Tracks.Track.UpdateTrackEnd | src/tracks/keyframe.js:277-294 | the end becomes the largest end over the live keys of the given property, or of the selected one when none is given; nothing else changes |
| Tracks.Track.RebuildKeysMapProperty | src/tracks/keyframe.js:74-106 | a new property is installed with its keys restarted; an existing one is kept; the end is recomputed from that property |
| Tracks.Track.Restart | src/timeline.js:141-160 | restarting a track is `RestartState` and keeps it valid |
| Tracks.Track.SetupKeysForFollowType | src/tracks/keyframe.js:177-272 | nothing changes unless the selected property follows; then the track becomes `SetupState` of the followed track's samples |
| Tracks.Track.NoFollow | src/tracks/keyframe.js:124-133 | the selected property stops following; its follow keys and follow track are cleared; the end is taken from its own keys |
| Tracks.Track.Follow | src/tracks/keyframe.js:150-154 | the selected property follows the chosen track; its follow keys are set up; the end is taken from them |
| Tracks.Track.Step | src/timeline.js:236-321 | this track's share of the pass is `StepState` |
| Tracks.Track.RecordSample | src/timeline.js:239-262 | the recording step is `RecordStep` |
| Tracks.Track.EvaluateProperties | src/timeline.js:268-321 | the keyframe step is `EvalProps`, written back in place |
| Timelines.Advance | src/timeline.js:79-82 | definition of the clock's advance; its properties are stated by `AdvanceExact` |
| Timelines.LoopPolicy | src/timeline.js:85-99 | definition of the loop policy; its properties are stated by `BoundaryCrossed`, `NoBoundary` and `LoopOnceRestartsOnce` |
| Timelines.Tick | src/timeline.js:79-99 | definition of the clock half of `update`; its properties are stated by `NoBoundary`, `LoopingStaysWithinEnd` and `InfiniteLoopKeepsPlaying` |
| Timelines.AdvanceExact | src/timeline.js:79-82 | a playing clock advances `time` and `totalTime` by exactly the delta; a paused clock does not move; nothing else changes |
| Timelines.BoundaryCrossed | src/timeline.js:85-99 | past the end in a looping mode the loop count grows by one; then the clock restarts at 0 (infinite, or within the count) or stops playing (count exceeded) |
| Timelines.NoBoundary | src/timeline.js:85-99 | in mode 0, or before the end, the loop policy changes nothing; in mode 0 a tick only advances the clock |
| Timelines.LoopingStaysWithinEnd | src/timeline.js:85-99 | in a looping mode, a clock left past the end after a tick has stopped playing |
| Timelines.InfiniteLoopKeepsPlaying | src/timeline.js:91-94 | in mode -1 a tick never stops the timeline |
| Timelines.LoopOnceRestartsOnce | src/timeline.js:88-97 | in mode 1 the first crossing of the end restarts at 0, and the next crossing stops the timeline |
| Timelines.RestartAll | src/timeline.js:140-162 | definition of `restartTracks` on track states; its properties are stated by `RestartAllFacts` |
| Timelines.RestartAllFacts | src/timeline.js:140-162 | restarting every track keeps them valid and covered; every live key is pending; every recording cursor is 0; it is idempotent |
| Timelines.Survivors | src/timeline.js:315-320 | the surviving list is no longer than the original |
| Timelines.SurvivorsFrom | src/timeline.js:315-320 | survivors come from the original list |
| Timelines.SurvivorsExactly | src/timeline.js:315-320 | in a list without repeats, a track survives exactly when it was not flagged, and the survivors have no repeats |
| Timelines.SurvivorsNone | src/timeline.js:235 | with nothing flagged, the list is unchanged |
| Timelines.RemoveAt | src/timeline.js:317 | `splice(i, 1)` for an index in range: one element fewer; the elements before i stay in place; those after move down by one |
| Timelines.SurvivorsOne | src/timeline.js:317 | with only the track at i flagged, the survivors are exactly `splice(i, 1)` |
| Timelines.SpliceOne | src/timeline.js:317 | JavaScript `splice(start, 1)`: past the end nothing is removed; a negative start counts from the end |
| Timelines.SplicesAsWritten | src/timeline.js:315-319 | each completion splices once and steps the index back, so the index ends `count` lower; at most `count` tracks go |
| Timelines.SplicesAsWrittenOnce | src/timeline.js:315-319 | one completion's `splice(i, 1)` removes exactly the owning track; this is the whole effect as written only when the completing key is in the track's last property (see Left out) |
| Timelines.SplicesAsWrittenTwice | src/timeline.js:315-319 | with two completions in the second of two tracks, the code as written removes both tracks, where only the second should go |
| Timelines.ApplyAll | src/timeline.js:234-324 | the pass yields one new state and one removal flag per track; it changes nothing when not playing; it removes nothing when not playing or when looping |
| Timelines.ApplyAllStep | src/timeline.js:236-320 | each track is stepped alone by `StepState` with its own reading; it is flagged for removal exactly when, in mode 0, it is a keyframe track with a live key that is evaluated and whose eased progress is 1; a number or position track is never removed |
| Timelines.TickAll | src/timeline.js:79-99 | in a looping mode the timeline end becomes the largest track end; in mode 0 the end is untouched, the clock only advances, and no track restarts |
| Timelines.UpdateAll | src/timeline.js:75-102 | one update yields one new state and one removal flag per track; it sets the end as `TickAll` does; in mode 0 the clock only advances |
| Timelines.StepTrack | src/timeline.js:236-320 | one track's step leaves it in its `ApplyAll` state, and reports its `ApplyAll` removal flag |
| Timelines.StepTracks | src/timeline.js:236-321 | the loop over the tracks leaves every track in its `ApplyAll` state and collects exactly the `ApplyAll` removal flags |
| Timelines.Timeline.constructor | src/timeline.js:12-22 | a new timeline is named "Global" with no tracks, time 0, total 0, loop count 0, loop mode -1, playing |
| Timelines.Timeline.Loop | src/timeline.js:39-41 | only the loop mode changes |
| Timelines.Timeline.Pause | src/timeline.js:55-58 | only `playing` changes, to false |
| Timelines.Timeline.Stop | src/timeline.js:45-51 | stops playing, returns the time to 0 and restarts every track (`RestartAll`); nothing else changes |
| Timelines.Timeline.Play | src/timeline.js:62-70 | plays; when the time is past the recorded end, it first returns to 0 and restarts every track |
| Timelines.Timeline.FindAnimationEnd | src/timeline.js:107-119 | returns and records the largest track end (`MaxOf`); nothing else changes |
| Timelines.Timeline.RestartTracks | src/timeline.js:140-162 | every track's new state is `RestartAll` of the old ones; the tracks stay valid |
| Timelines.Timeline.ApplyValues | src/timeline.js:234-324 | the tracks' new states are `ApplyAll`'s, and the list becomes the survivors of its removal flags; clock and end are unchanged |
| Timelines.Timeline.Compact | src/timeline.js:315-320 | the list becomes the survivors of the flags, with no repeats and every track valid |
| Timelines.Timeline.CheckLoop | src/timeline.js:85-99 | records the animation end, then applies `LoopPolicy` to the clock and says whether to restart |
| Timelines.Timeline.ClockStep | src/timeline.js:79-99 | advances the clock and applies the loop policy, as `Tick` says; the end is recorded only in a looping mode |
| Timelines.Timeline.TickClock | src/timeline.js:79-99 | the clock half of `update`, restarts included, is `TickAll` |
| Timelines.Timeline.Update | src/timeline.js:75-102 | one update is `UpdateAll`: the clock half, then the pass on the new clock; the update counter grows by one |
| Anims.Parsed | src/Anim.js:27-53 | definition of the argument reading of `to()`; its properties are stated by `ParsedSpelled`, `ParsedDefaults`, `ParsedLoneNumber`, `ParsedWithoutDelay` and `ParsedOutOfTurn` |
| Anims.ParsedSpelled | src/Anim.js:27-53 | delay, properties, duration and easing, given in order, are read back as given, whatever follows |
| Anims.ParsedDefaults | src/Anim.js:27-53 | with no arguments: delay 0, no properties, duration 1, `Linear.EaseNone` |
| Anims.ParsedLoneNumber | src/Anim.js:27-46 | a lone number is the delay, not the duration |
| Anims.ParsedWithoutDelay | src/Anim.js:27-46 | properties first: delay 0, and the following number is the duration |
| Anims.ParsedOutOfTurn | src/Anim.js:34-53 | an argument out of its turn is ignored; `null` counts as an object with no properties |
| Anims.Fire | src/Anim.js:88-93 | a guarded handler runs its callback only while the guard is down, and raises it; the no-op runs nothing |
| Anims.FireAll | src/Anim.js:85-94 | handlers sharing one guard run the callback at most once, on the first run, and only if the guard was down |
| Anims.Guard.constructor | src/Anim.js:85 | the shared flag starts down |
| Anims.AnimEntry.constructor | src/Anim.js:59-73 | a new entry holds the given fields, has not started, and has no-op handlers |
| Anims.MadeFrom | src/Anim.js:55-76 | definition of the entries `to()` makes for one group; it is what `MakeGroup` and `Anim.To` ensure |
| Anims.InstallOnce | src/Anim.js:85-94 | every entry of the group gets a handler with the one fresh guard, which is down; the other handler and the flags are untouched |
| Anims.MakeGroup | src/Anim.js:55-76 | one fresh entry per property, in order, each starting at the given start and lasting the duration, with the end value, delay and easing read; the same entries are appended to the timeline's list |
| Anims.Anim.constructor | src/Anim.js:4-16 | a new Anim starts and ends at 0, at time 0, neither started nor ended, with no groups |
| Anims.Anim.To | src/Anim.js:17-80 | exactly one group is appended, made as `MadeFrom` says from the arguments as `Parsed` reads them, starting at the timeline time plus the delay plus the end so far; the end grows by delay plus duration; nothing else changes |
| Anims.Anim.OnStart | src/Anim.js:81-97 | with no group nothing changes; otherwise every entry of the last group gets an onStart handler sharing one fresh guard that is down |
| Anims.Anim.OnUpdate | src/Anim.js:98-104 | only the update callback changes |
| Anims.Anim.OnEnd | src/Anim.js:105-121 | with no group nothing changes; otherwise every entry of the last group gets an onEnd handler sharing one fresh guard that is down |

## Left out

- Tracks are removed after the whole pass, not inside it (mark and compact).
  The code splices a track out as soon as one of its keys completes, steps `i` back, and goes on with the pass.
  The resulting list is the same (`SplicesAsWrittenOnce`) only when the one completing key belongs to the track's last property in `for..in` order; more completions are the finding below.
- After a splice the code reads the remaining properties of the same `for..in` loop through `this.tracks[i]` with the stepped-back `i` (src/timeline.js:268-272). The model does not follow that re-indexing. As written, this throws a TypeError when `i` is -1, or when track `i-1` has no keys map or lacks that property; otherwise it evaluates track `i-1`'s keys of that property a second time, which may complete and splice again.
- An easing name whose family or variant is missing from the easing table makes `Easing[easeType][easeBezier](t)` (src/timeline.js:300) throw, and the pass stops part-way. A name without a dot, whose family is empty, is one such name. The model's `ease` is a total function and does not capture that error.
- `src/tracks/track.js`, `src/tracks/number.js`, `src/tracks/position.js` and `src/easing.js` are not part of this model.
  - `Tracks.Track.SampledTrack` stands for a number or position track.
  - `Timelines.Timeline.AddTrack` stands for the registration of a track with its timeline.
  - The easing curves are the parameter `ease`.
- A recording track's `getTargetValue()` reads an external input. Its values are the parameter `readings`.
- The `'update'` event that `update` emits for the GUI is recorded only as a counter, `updates`.
- `getJson` and `resetTracks` are left out: JSON (de)serialisation, `eval` and scene lookup.
- The `targets` list is left out, and so are GUI methods of the keyframe track (templates, DOM events, `updateFollowingModifier`, `followPropertyPosition`).
- The entries of `Anim.to` are given the timeline's entry list as the parameter `anims` and return it extended. The `timeline` and `parent` back-references of entries and `propertyAnims` are left out.
- `Anim.onUpdateCallback` is recorded, never invoked; the per-key update callback call in `applyValues` is left out.
- `onStart`/`onEnd` return `undefined` rather than `this` when there is no group; the fluent return value is not modelled.
- Tracks.AddKeysSorted: promises sorted keys only when every existing key ended by the old track end. The track does not keep that: `updateTrackEnd` on a shorter property, and the 'ignoreKeys' and 'noFollow' follow changes, can lower the end, and a later `keyframe()` then starts before keys already present (`LoweredEndUnsorts`).
- Tracks.Track.UpdateTrackEnd, Tracks.Track.SetupKeysForFollowType, Tracks.Track.NoFollow, Tracks.Track.Follow: require the given or selected property to be in the keys map. The code throws a TypeError otherwise (src/tracks/keyframe.js:112, 121, 178, 282), for instance when `updateTrackEnd` runs from its event binding while `selectedProperty` is still `''`; that error path is not modelled.
- The default easing of `to()` is `Timeline.Easing.Linear.EaseNone` (src/Anim.js:52), but src/Anim.js does not bind `Timeline`. The model assumes a global `Timeline` with an easing table exists; without it the default throws a ReferenceError, which is not modelled.
- Property enumeration order: JavaScript's `for..in` puts integer-like keys first; the model takes insertion order.
- Timelines.Timeline.ApplyValues, Timelines.Timeline.Update: require every live key's property to be present on its target (`AllCovered`). The code would read `undefined` and fail on `.length` otherwise.
- Tracks.Track.RecordSample: requires a positive sample rate for a recording track, which the number and position constructors are taken to ensure.
- Key fields the pass never reads (`id`, `name`, `timeline`, `duration`, `time`, `followKey`) are left out, and so is `parent`, which the pass reads only for the update callback left out above; `startValue` of a new key is undefined (NaN).
- Targets shared between tracks are not modelled: each keyframe track holds its own target's properties.
- String values other than `'px'` strings, and non-numeric end values, are not modelled.
- Floating point is modelled as exact reals.

## Findings

| source | as written | input that shows it | evidently intended | confidence | as-written member | corrected member |
|---|---|---|---|---|---|---|
| src/timeline.js:315-319 | every key of a track whose eased progress is 1 runs `splice(i, 1); i--`, so a track with two keys completing in one pass removes two tracks (and at `i = -1` the last one) | loop mode 0, tracks `[T0, T1]`, T1 a keyframe track with two keys on one property ending at 1 and 2, Linear easing; one update moving time from 0.5 to 2 removes T1 and then T0 | the completed track alone is removed, once | not executed | Timelines.SplicesAsWrittenTwice | Timelines.SurvivorsExactly |
