# Additive-synthesis envelope scheduler

A Dafny model of the core of *audiogenerator*: a sine-wave additive
synthesiser that, for every harmonic, schedules a gain envelope on a Web
Audio gain node, and keeps a bank of voices (oscillators and gain nodes)
that is filled on play, retuned in place on update and emptied on stop.

The repository has two near-duplicate synthesisers, modelled as two modules
that share one envelope function:

- `docs/audio_generator.js` (module `VibratoSynth`): three parallel lists
  (tone oscillators, gain nodes, vibrato oscillators), a vibrato whose peak
  deviation is `frequency * vibratoDepth`, and an update path.
- `docs/web/audio_generator.js` (module `NormalizedSynth`): two parallel
  lists, volumes divided by their sum, and the decay call emitted only for a
  positive damping factor.

Module `Automation` models the Web Audio API abstractly: every automation
call (`setValueAtTime`, `linearRampToValueAtTime`, `setTargetAtTime`,
`cancelScheduledValues`) is an `Event` appended to the parameter's call
list; oscillators and gain nodes are records holding those lists.
`Pending` gives the events still scheduled once cancellations are applied,
following the Web Audio API's rule that `cancelScheduledValues(t)` removes
every event filed at or after `t`.

Module `Scheduler` holds `Envelope(volume, damping, bpm, start, guardDecay)`.
With a zero damping factor or a zero tempo it is one `setValueAtTime(volume,
start)`. Otherwise it is 100 cycles of `60 / bpm` seconds, each a silence,
a 10 ms linear attack to the volume and an approach toward 0.0001 with time
constant `1 / damping`; `guardDecay` (true for the normalising variant)
drops the approach when the damping factor is not positive. The envelope is
defined in closed form (event `j` is event `j % w` of cycle `j / w`, `w` the
number of calls per cycle), and `ScheduleEnvelope` is the source's loop,
proved to produce it.

Numbers are Dafny `real`s, so the sums and time stamps below hold exactly;
JavaScript `===` on numbers is real equality. The audio clock's
`currentTime` is the parameter `now`.

Some behaviours of the code are easy to misread; the model follows the code:

- An update schedules the new vibrato depth on a freshly created gain node
  that is connected to nothing downstream (`docs/audio_generator.js:100`), so
  the depth actually applied stays the one of the last play. The model
  records the value in `strayDepths` and proves the connected depth gain
  unchanged (`UpdateLeavesVibratoDepth`).
- Consecutive calls are in time order only for cycles at least as long as
  the attack, that is positive tempos up to 6000 bpm (`TimeOrderIff`); above that a
  cycle's silence is filed before the previous ramp ends.
- Volumes pass through unnormalised whenever their sum is not positive,
  negative sums included, not only when it is zero.
- The code validates nothing and raises no error of its own. An update after
  a stop, when the bank is empty but the audio context exists, does nothing
  (`UpdateEmptyIsNoOp`); an update before the first play reads the clock of
  an audio context that does not exist yet (`docs/audio_generator.js:71`)
  and throws, which the model does not describe. The lists the code indexes
  must be at least as long as the list it iterates over; that is stated as a
  precondition (equal lengths, as callers pass them, satisfy it).

## Model

| member | source | states |
|---|---|---|
| `Scheduler.Envelope` | docs/audio_generator.js:37-49 | Nothing is cancelled; a sustained harmonic gets one set-value of its volume; a retriggered one gets 100 cycles of 3 calls (2 when the guard drops the decay), whose set-values are all 0, ramps all reach the volume, and decays all approach 0.0001 with time constant `1/damping`, only when the decay is emitted |
| `Scheduler.ScheduleEnvelope` | docs/audio_generator.js:37-49 | The play loop yields one set-value of the volume at `now` when damping or tempo is zero, and otherwise 100 cycles whose call `j` is the closed-form event `j % w` of cycle `j / w`; the result equals `Envelope` |
| `Scheduler.SustainedEnvelope` | docs/audio_generator.js:37-38 | With damping 0 or tempo 0 the envelope is exactly one set-value of the volume at the start time |
| `Scheduler.RetriggerCount` | docs/web/audio_generator.js:40-46 | A retrigger envelope has 300 calls unguarded, 300 guarded with positive damping, 200 guarded with negative damping |
| `Scheduler.CycleLayout` | docs/audio_generator.js:40-47 | Cycle `i` is set-0 at `start + i*(60/bpm)`, a ramp to the volume at that instant plus 0.01, and (when emitted) an approach toward 0.0001 from that same instant with time constant `1/damping` |
| `Scheduler.CycleStartsIncrease` | docs/audio_generator.js:44 | For a positive tempo, cycle start times strictly increase with the cycle index |
| `Scheduler.WithinCycleOrder` | docs/audio_generator.js:44-47 | Within a cycle the set-0 time is strictly before the ramp time, and the decay starts exactly at the ramp time |
| `Scheduler.TimeOrderIff` | docs/audio_generator.js:40-47 | A retrigger envelope lists its calls in nondecreasing time exactly when `60/bpm >= 0.01` |
| `Scheduler.NotBeforeStart` | docs/audio_generator.js:37-48 | For a sustained harmonic or a positive tempo, no call of the envelope is filed before its start time |
| `Automation.PendingAppend` | docs/audio_generator.js:82-96 | Calls that cancel nothing are scheduled after whatever is already pending, unchanged |
| `Automation.CancelThenSchedule` | docs/audio_generator.js:82-96 | Cancelling at `t` then scheduling leaves only the earlier events filed before `t`, followed by the new calls; every pending event at or after `t` is a new one |
| `VibratoSynth.VibratoAmplitude` | docs/audio_generator.js:28 | The vibrato gain is the fraction `vibratoDepth` of the carrier frequency (its ratio to a nonzero frequency is the depth), and is 0 for a zero frequency or depth |
| `VibratoSynth.Play` | docs/audio_generator.js:10-59 | After play the three lists have one entry per harmonic; entry `i` has frequency `harmonics[i]`, the unguarded envelope of its volume, damping and tempo from `now`, a vibrato oscillator at `vibratoSpeed` and a vibrato gain of `harmonics[i] * vibratoDepth`, and no stray depth values |
| `VibratoSynth.Stop` | docs/audio_generator.js:62-68 | Stop leaves all three lists empty |
| `VibratoSynth.Update` | docs/audio_generator.js:70-101 | Update keeps every list length; per voice it appends the new frequency, appends a cancel at `now` then a fresh envelope from `now`, appends the vibrato speed, and leaves the connected vibrato depth gain as it was |
| `VibratoSynth.StopIdempotent` | docs/audio_generator.js:62-68 | A second stop gives the same empty bank as the first |
| `VibratoSynth.PlayReplacesAll` | docs/audio_generator.js:13-58 | Play's result does not depend on the bank it replaces: no earlier voice survives |
| `VibratoSynth.UpdateEmptyIsNoOp` | docs/audio_generator.js:73 | Updating an empty bank (after a stop) leaves it empty, whatever the arguments |
| `VibratoSynth.UpdateReschedulesAsPlay` | docs/audio_generator.js:82-96 | After update the pending gain calls of voice `i` are its old calls filed before `now` followed by exactly the envelope a play at `now` would give it |
| `VibratoSynth.UpdateDropsStaleCalls` | docs/audio_generator.js:82-96 | With a non-negative tempo, every gain call pending at or after `now` after an update belongs to the fresh envelope, which starts no earlier than `now` |
| `VibratoSynth.LifecycleSizes` | docs/audio_generator.js:13-101 | Play then update keeps the lists aligned and sized to the harmonics; a stop afterwards empties them |
| `VibratoSynth.UpdateLeavesVibratoDepth` | docs/audio_generator.js:98-100 | After play then update, the connected vibrato gain still holds the play-time `frequency * depth`, the update's value lands on an unconnected node, and the vibrato oscillator has both speeds scheduled |
| `VibratoSynth.SustainedScenario` | docs/audio_generator.js:37-38 | Playing 440 Hz and 880 Hz at volumes 1 and 0.5 with no damping gives two voices each holding its volume |
| `VibratoSynth.RetriggerScenario` | docs/audio_generator.js:40-47 | At 120 bpm with damping 5 the first cycle is set-0, ramp to 1 at +0.01, decay with time constant 0.2, and the second cycle starts at +0.5 |
| `NormalizedSynth.SumBoundsTerms` | docs/web/audio_generator.js:18 | The total of non-negative volumes is non-negative and at least each volume |
| `NormalizedSynth.Normalize` | docs/web/audio_generator.js:28 | Same length as the volumes; with a positive total each normalised volume times the total is the original volume; otherwise the volumes are returned unchanged |
| `NormalizedSynth.Normalizer` | docs/web/audio_generator.js:17-19 | The normaliser is positive and multiplies the total to 1 when the total is positive, and is 1 otherwise |
| `NormalizedSynth.NormalizedSumIsOne` | docs/web/audio_generator.js:18-28 | With a positive total the normalised volumes sum to exactly 1 |
| `NormalizedSynth.SilentVolumesUnchanged` | docs/web/audio_generator.js:19-28 | With a total that is not positive every volume passes through unchanged |
| `NormalizedSynth.NormalizeKeepsProportions` | docs/web/audio_generator.js:28 | Normalising keeps the ratio between any two volumes |
| `NormalizedSynth.Play` | docs/web/audio_generator.js:9-57 | After play both lists have one entry per harmonic; entry `i` has frequency `harmonics[i]` and the guarded envelope of its normalised volume, damping and tempo from `now` |
| `NormalizedSynth.Stop` | docs/web/audio_generator.js:59-63 | Stop leaves both lists empty |
| `NormalizedSynth.StopIdempotent` | docs/web/audio_generator.js:59-63 | A second stop gives the same empty bank as the first |
| `NormalizedSynth.PlayReplacesAll` | docs/web/audio_generator.js:13-55 | Play's result does not depend on the bank it replaces |
| `NormalizedSynth.SustainedLevelsSumToOne` | docs/web/audio_generator.js:18-34 | When every harmonic sustains and the total is positive, each voice is a single set-value and those levels sum to 1 |
| `NormalizedSynth.RetriggerCountByDampingSign` | docs/web/audio_generator.js:40-46 | In the retrigger branch a voice gets 300 calls for positive damping and 200, with no decay call, for negative damping |

## Left out

- Acquiring the audio context (`initAudio`, the `window` lookup): the clock value `currentTime` is the parameter `now`.
- `connect` routing, `createOscillator`/`createGain` allocation and the `start`/`stop` calls on oscillators: device side effects; voices are records and the bank lists are what the code keeps.
- The oscillator waveform (`type = 'sine'`): always sine, so not stored.
- The gain node created on every update for the vibrato depth (`docs/audio_generator.js:100`): only the value scheduled on it is kept (`strayDepths`), not the node.
- Rendering of the ramp and exponential curves over time, and IEEE-754 rounding: the model produces the call lists over exact reals.
- Device calls that throw: a `RangeError` for a negative time or, from an unguarded negative damping factor, a negative time constant (`docs/audio_generator.js:47`), or a `TypeError` for an omitted `vibratoDepth`/`vibratoSpeed` (`docs/audio_generator.js:27`). In the code the exception ends the `forEach` (`docs/audio_generator.js:17`, `73`) at that harmonic, so the bank stops short there (for a play, before that harmonic's pushes at lines 56-58). The results of both `Play`s and of `Update` do not describe that case: they list every call as if the device accepted it.
- Calls whose argument lists are shorter than the list being iterated over: the code then reads `undefined` entries and computes with them; the preconditions of both `Play`s and of `Update` exclude such calls.
