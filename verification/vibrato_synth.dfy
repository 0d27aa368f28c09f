/**
  The voice bank of the vibrato synthesiser: three parallel lists (tone
  oscillators, their gain nodes, their vibrato units), filled by `Play`,
  retuned in place by `Update` and emptied by `Stop`. The audio clock's
  current time is the parameter `now`.
 */
module VibratoSynth {
  import opened Automation
  import opened Scheduler

  /** A vibrato unit: a low-frequency oscillator whose output, scaled by the
      connected `depth` gain node, modulates a tone oscillator's frequency.
      `strayDepths` records the depth values `Update` schedules on fresh gain
      nodes that never reach the tone oscillator. */
  datatype Vibrato = Vibrato(oscillator: Oscillator, depth: GainNode, strayDepths: seq<real>)

  datatype Bank = Bank(oscillators: seq<Oscillator>, gainNodes: seq<GainNode>, vibratoOscillators: seq<Vibrato>)
  {
    /** The three lists describe the same voices, index by index. */
    predicate Aligned() {
      |oscillators| == |gainNodes| == |vibratoOscillators|
    }

    function Size(): nat {
      |oscillators|
    }
  }

  const EmptyBank := Bank([], [], [])

  /** Peak frequency deviation of a voice's vibrato, in Hz: the fraction
      `vibratoDepth` of the carrier frequency. */
  function VibratoAmplitude(frequency: real, vibratoDepth: real): (r: real)
    ensures frequency != 0.0 ==> r / frequency == vibratoDepth
    ensures frequency == 0.0 || vibratoDepth == 0.0 ==> r == 0.0
  {
    frequency * vibratoDepth
  }

  /** Releases every voice. */
  function Stop(b: Bank): (r: Bank)
    ensures r.Aligned() && r.Size() == 0
    ensures r.gainNodes == [] && r.vibratoOscillators == []
  {
    EmptyBank
  }

  /** The parts of a fresh voice, scheduled from `now`. */
  function ToneOscillator(frequency: real, now: real): Oscillator {
    Oscillator([SetValue(frequency, now)])
  }

  function NewVibrato(frequency: real, vibratoDepth: real, vibratoSpeed: real, now: real): Vibrato {
    Vibrato(Oscillator([SetValue(vibratoSpeed, now)]),
            GainNode([SetValue(VibratoAmplitude(frequency, vibratoDepth), now)]),
            [])
  }

  /** Replaces the bank with one voice per harmonic, all sharing the time origin `now`. */
  function Play(b: Bank, harmonics: seq<real>, harmonicVolumes: seq<real>, dampingFactors: seq<real>,
                bpmValues: seq<real>, vibratoDepth: real, vibratoSpeed: real, now: real): (r: Bank)
    requires |harmonicVolumes| >= |harmonics| && |dampingFactors| >= |harmonics| && |bpmValues| >= |harmonics|
    ensures r.Aligned() && r.Size() == |harmonics|
    ensures forall i :: 0 <= i < |harmonics| ==>
              && r.oscillators[i].frequency == [SetValue(harmonics[i], now)]
              && r.gainNodes[i].gain
                 == Envelope(harmonicVolumes[i], dampingFactors[i], bpmValues[i], now, false)
              && r.vibratoOscillators[i].oscillator.frequency == [SetValue(vibratoSpeed, now)]
              && r.vibratoOscillators[i].depth.gain == [SetValue(harmonics[i] * vibratoDepth, now)]
              && r.vibratoOscillators[i].strayDepths == []
  {
    var cleared := Stop(b);
    var n := |harmonics|;
    var tones := seq(n, i requires 0 <= i < n => ToneOscillator(harmonics[i], now));
    var gains := seq(n, i requires 0 <= i < n =>
                   GainNode(Envelope(harmonicVolumes[i], dampingFactors[i], bpmValues[i], now, false)));
    var vibratos := seq(n, i requires 0 <= i < n => NewVibrato(harmonics[i], vibratoDepth, vibratoSpeed, now));
    assert cleared.oscillators + tones == tones;
    assert cleared.gainNodes + gains == gains;
    assert cleared.vibratoOscillators + vibratos == vibratos;
    Bank(cleared.oscillators + tones, cleared.gainNodes + gains, cleared.vibratoOscillators + vibratos)
  }

  /** Requirements on the arguments of `Update`: the bank is aligned and every
      argument list covers every voice. */
  predicate UpdateArgsCover(b: Bank, harmonics: seq<real>, harmonicVolumes: seq<real>,
                            dampingFactors: seq<real>, bpmValues: seq<real>) {
    && b.Aligned()
    && |harmonics| >= b.Size() && |harmonicVolumes| >= b.Size()
    && |dampingFactors| >= b.Size() && |bpmValues| >= b.Size()
  }

  /** Retunes one voice in place from `now`. */
  function UpdateVoiceGain(g: GainNode, volume: real, dampingFactor: real, bpm: real, now: real): GainNode {
    GainNode(g.gain + [CancelFrom(now)] + Envelope(volume, dampingFactor, bpm, now, false))
  }

  function UpdateVibrato(v: Vibrato, frequency: real, vibratoDepth: real, vibratoSpeed: real, now: real): Vibrato {
    Vibrato(Oscillator(v.oscillator.frequency + [SetValue(vibratoSpeed, now)]),
            v.depth,
            v.strayDepths + [VibratoAmplitude(frequency, vibratoDepth)])
  }

  /** Reschedules every existing voice from `now`, without creating or releasing any. */
  function Update(b: Bank, harmonics: seq<real>, harmonicVolumes: seq<real>, dampingFactors: seq<real>,
                  bpmValues: seq<real>, vibratoDepth: real, vibratoSpeed: real, now: real): (r: Bank)
    requires UpdateArgsCover(b, harmonics, harmonicVolumes, dampingFactors, bpmValues)
    ensures r.Aligned() && r.Size() == b.Size()
    ensures forall i :: 0 <= i < b.Size() ==>
              && r.oscillators[i].frequency == b.oscillators[i].frequency + [SetValue(harmonics[i], now)]
              && r.gainNodes[i].gain == b.gainNodes[i].gain + [CancelFrom(now)]
                                        + Envelope(harmonicVolumes[i], dampingFactors[i], bpmValues[i], now, false)
              && r.vibratoOscillators[i].oscillator.frequency
                 == b.vibratoOscillators[i].oscillator.frequency + [SetValue(vibratoSpeed, now)]
              && r.vibratoOscillators[i].depth == b.vibratoOscillators[i].depth
              && r.vibratoOscillators[i].strayDepths
                 == b.vibratoOscillators[i].strayDepths + [harmonics[i] * vibratoDepth]
  {
    var n := b.Size();
    Bank(seq(n, i requires 0 <= i < n =>
               Oscillator(b.oscillators[i].frequency + [SetValue(harmonics[i], now)])),
         seq(n, i requires 0 <= i < n =>
               UpdateVoiceGain(b.gainNodes[i], harmonicVolumes[i], dampingFactors[i], bpmValues[i], now)),
         seq(n, i requires 0 <= i < n =>
               UpdateVibrato(b.vibratoOscillators[i], harmonics[i], vibratoDepth, vibratoSpeed, now)))
  }

  /** Stopping twice is the same as stopping once. */
  lemma StopIdempotent(b: Bank)
    ensures Stop(Stop(b)) == Stop(b)
    ensures Stop(b) == EmptyBank
  {
  }

  /** Play does not depend on the voices it replaces: none survive it. */
  lemma PlayReplacesAll(b1: Bank, b2: Bank, harmonics: seq<real>, harmonicVolumes: seq<real>,
                        dampingFactors: seq<real>, bpmValues: seq<real>, vibratoDepth: real,
                        vibratoSpeed: real, now: real)
    requires |harmonicVolumes| >= |harmonics| && |dampingFactors| >= |harmonics| && |bpmValues| >= |harmonics|
    ensures Play(b1, harmonics, harmonicVolumes, dampingFactors, bpmValues, vibratoDepth, vibratoSpeed, now)
         == Play(b2, harmonics, harmonicVolumes, dampingFactors, bpmValues, vibratoDepth, vibratoSpeed, now)
  {
  }

  /** Updating an empty bank does nothing. */
  lemma UpdateEmptyIsNoOp(harmonics: seq<real>, harmonicVolumes: seq<real>, dampingFactors: seq<real>,
                          bpmValues: seq<real>, vibratoDepth: real, vibratoSpeed: real, now: real)
    ensures Update(EmptyBank, harmonics, harmonicVolumes, dampingFactors, bpmValues,
                   vibratoDepth, vibratoSpeed, now) == EmptyBank
  {
  }

  /** After an update, the gain calls still pending on voice `i` are the old
      ones filed before `now` followed by exactly what a fresh play at `now`
      would schedule for that voice. */
  lemma UpdateReschedulesAsPlay(b: Bank, harmonics: seq<real>, harmonicVolumes: seq<real>,
                                dampingFactors: seq<real>, bpmValues: seq<real>, vibratoDepth: real,
                                vibratoSpeed: real, now: real, i: nat)
    requires UpdateArgsCover(b, harmonics, harmonicVolumes, dampingFactors, bpmValues)
    requires |harmonics| == b.Size()
    requires i < b.Size()
    ensures var updated := Update(b, harmonics, harmonicVolumes, dampingFactors, bpmValues,
                                  vibratoDepth, vibratoSpeed, now);
            var replayed := Play(b, harmonics, harmonicVolumes, dampingFactors, bpmValues,
                              vibratoDepth, vibratoSpeed, now);
            Pending(updated.gainNodes[i].gain)
            == Before(Pending(b.gainNodes[i].gain), now) + replayed.gainNodes[i].gain
  {
    var env := Envelope(harmonicVolumes[i], dampingFactors[i], bpmValues[i], now, false);
    EnvelopeCancelFree(harmonicVolumes[i], dampingFactors[i], bpmValues[i], now, false);
    CancelThenSchedule(b.gainNodes[i].gain, now, env);
  }

  /** With non-negative tempos, no gain call from before an update that is
      filed at or after `now` is still pending afterwards. */
  lemma UpdateDropsStaleCalls(b: Bank, harmonics: seq<real>, harmonicVolumes: seq<real>,
                              dampingFactors: seq<real>, bpmValues: seq<real>, vibratoDepth: real,
                              vibratoSpeed: real, now: real, i: nat)
    requires UpdateArgsCover(b, harmonics, harmonicVolumes, dampingFactors, bpmValues)
    requires i < b.Size()
    requires bpmValues[i] >= 0.0
    ensures var updated := Update(b, harmonics, harmonicVolumes, dampingFactors, bpmValues,
                                  vibratoDepth, vibratoSpeed, now);
            var env := Envelope(harmonicVolumes[i], dampingFactors[i], bpmValues[i], now, false);
            && (forall e :: e in Pending(updated.gainNodes[i].gain) && e.Time() >= now ==> e in env)
            && (forall e :: e in env ==> e.Time() >= now)
  {
    var env := Envelope(harmonicVolumes[i], dampingFactors[i], bpmValues[i], now, false);
    EnvelopeCancelFree(harmonicVolumes[i], dampingFactors[i], bpmValues[i], now, false);
    CancelThenSchedule(b.gainNodes[i].gain, now, env);
    NotBeforeStart(harmonicVolumes[i], dampingFactors[i], bpmValues[i], now, false);
  }

  /** The bank lifecycle keeps the three lists aligned and sized to the
      harmonics last played: play, then an update, then a stop. */
  lemma LifecycleSizes(harmonics: seq<real>, harmonicVolumes: seq<real>, dampingFactors: seq<real>,
                       bpmValues: seq<real>, vibratoDepth: real, vibratoSpeed: real, t0: real, t1: real)
    requires |harmonicVolumes| >= |harmonics| && |dampingFactors| >= |harmonics| && |bpmValues| >= |harmonics|
    ensures var played := Play(EmptyBank, harmonics, harmonicVolumes, dampingFactors, bpmValues,
                               vibratoDepth, vibratoSpeed, t0);
            var updated := Update(played, harmonics, harmonicVolumes, dampingFactors, bpmValues,
                                  vibratoDepth, vibratoSpeed, t1);
            && updated.Aligned() && updated.Size() == |harmonics|
            && Stop(updated) == EmptyBank
  {
  }

  /** The depth given to an update never reaches the tone oscillator: the
      connected depth gain keeps the value scheduled by the last play, sized
      by the frequency and depth of that play. */
  lemma UpdateLeavesVibratoDepth(harmonics: seq<real>, harmonicVolumes: seq<real>, dampingFactors: seq<real>,
                                 bpmValues: seq<real>, vibratoDepth: real, vibratoSpeed: real, t0: real,
                                 newHarmonics: seq<real>, newDepth: real, newSpeed: real, t1: real, i: nat)
    requires |harmonicVolumes| >= |harmonics| && |dampingFactors| >= |harmonics| && |bpmValues| >= |harmonics|
    requires |newHarmonics| >= |harmonics|
    requires i < |harmonics|
    ensures var played := Play(EmptyBank, harmonics, harmonicVolumes, dampingFactors, bpmValues,
                               vibratoDepth, vibratoSpeed, t0);
            var updated := Update(played, newHarmonics, harmonicVolumes, dampingFactors, bpmValues,
                                  newDepth, newSpeed, t1);
            && updated.vibratoOscillators[i].depth.gain == [SetValue(harmonics[i] * vibratoDepth, t0)]
            && updated.vibratoOscillators[i].strayDepths == [newHarmonics[i] * newDepth]
            && updated.vibratoOscillators[i].oscillator.frequency == [SetValue(vibratoSpeed, t0), SetValue(newSpeed, t1)]
  {
  }

  /** Two sustained harmonics: each voice holds its own volume from the start, with no retriggering. */
  lemma SustainedScenario(b: Bank, now: real)
    ensures var r := Play(b, [440.0, 880.0], [1.0, 0.5], [0.0, 0.0], [0.0, 0.0], 0.0, 0.0, now);
            && r.Size() == 2
            && r.gainNodes[0].gain == [SetValue(1.0, now)]
            && r.gainNodes[1].gain == [SetValue(0.5, now)]
  {
  }

  /** A harmonic at 120 bpm with damping 5: half-second cycles, decay time constant 0.2. */
  lemma RetriggerScenario(b: Bank, now: real)
    ensures var g := Play(b, [100.0], [1.0], [5.0], [120.0], 0.0, 0.0, now).gainNodes[0].gain;
            && |g| == 300
            && g[0] == SetValue(0.0, now)
            && g[1] == LinearRamp(1.0, now + 0.01)
            && g[2] == SetTarget(0.0001, now + 0.01, 0.2)
            && g[3] == SetValue(0.0, now + 0.5)
  {
    CycleLayout(1.0, 5.0, 120.0, now, false, 0);
    CycleLayout(1.0, 5.0, 120.0, now, false, 1);
  }
}
