/**
  The voice bank of the normalising synthesiser: tone oscillators and their
  gain nodes, two parallel lists. Volumes are divided by their sum before
  scheduling, and a retrigger cycle ends with a decay only for a positive
  damping factor. There is no vibrato and no update operation.
 */
module NormalizedSynth {
  import opened Automation
  import opened Scheduler

  datatype Bank = Bank(oscillators: seq<Oscillator>, gainNodes: seq<GainNode>)
  {
    predicate Aligned() {
      |oscillators| == |gainNodes|
    }
  }

  const EmptyBank := Bank([], [])

  /** Left-to-right sum, starting from 0. */
  function Sum(vs: seq<real>): real {
    if vs == [] then 0.0 else Sum(vs[..|vs| - 1]) + vs[|vs| - 1]
  }

  /** A sum of non-negative volumes is non-negative and at least each of them. */
  lemma {:induction false} SumBoundsTerms(vs: seq<real>)
    requires forall i :: 0 <= i < |vs| ==> vs[i] >= 0.0
    ensures Sum(vs) >= 0.0
    ensures forall i :: 0 <= i < |vs| ==> vs[i] <= Sum(vs)
    decreases |vs|
  {
    if vs != [] {
      var init := vs[..|vs| - 1];
      SumBoundsTerms(init);
      assert forall i :: 0 <= i < |init| ==> vs[i] == init[i];
    }
  }

  /** A volume times the normaliser, times the total, is the volume again. */
  lemma ShareOfTotal(harmonicVolumes: seq<real>, n: real)
    requires n * Sum(harmonicVolumes) == 1.0
    ensures forall i :: 0 <= i < |harmonicVolumes| ==>
              harmonicVolumes[i] * n * Sum(harmonicVolumes) == harmonicVolumes[i]
  {
    forall i | 0 <= i < |harmonicVolumes|
      ensures harmonicVolumes[i] * n * Sum(harmonicVolumes) == harmonicVolumes[i]
    {
      var v := harmonicVolumes[i];
      assert v * n * Sum(harmonicVolumes) == v * (n * Sum(harmonicVolumes));
    }
  }

  /** The factor every volume is multiplied by. */
  function Normalizer(harmonicVolumes: seq<real>): (n: real)
    ensures Sum(harmonicVolumes) > 0.0 ==> n > 0.0 && n * Sum(harmonicVolumes) == 1.0
    ensures Sum(harmonicVolumes) <= 0.0 ==> n == 1.0
  {
    var totalVolume := Sum(harmonicVolumes);
    if totalVolume > 0.0 then 1.0 / totalVolume else 1.0
  }

  /** Every term multiplied by `c`. */
  function Scale(vs: seq<real>, c: real): (r: seq<real>)
    ensures |r| == |vs|
    ensures forall i :: 0 <= i < |vs| ==> r[i] == vs[i] * c
  {
    seq(|vs|, i requires 0 <= i < |vs| => vs[i] * c)
  }

  /** The volumes as shares of their total, when the total is positive. */
  function Normalize(harmonicVolumes: seq<real>): (r: seq<real>)
    ensures |r| == |harmonicVolumes|
    ensures Sum(harmonicVolumes) > 0.0 ==>
              forall i :: 0 <= i < |r| ==> r[i] * Sum(harmonicVolumes) == harmonicVolumes[i]
    ensures Sum(harmonicVolumes) <= 0.0 ==> r == harmonicVolumes
  {
    var n := Normalizer(harmonicVolumes);
    if Sum(harmonicVolumes) > 0.0 then
      ShareOfTotal(harmonicVolumes, n);
      Scale(harmonicVolumes, n)
    else
      Scale(harmonicVolumes, n)
  }

  /** Scaling every term scales the sum. */
  lemma {:induction false} SumScaled(vs: seq<real>, c: real)
    ensures Sum(Scale(vs, c)) == Sum(vs) * c
    decreases |vs|
  {
    if vs != [] {
      var init := vs[..|vs| - 1];
      SumScaled(init, c);
      var scaled := Scale(vs, c);
      assert |scaled[..|vs| - 1]| == |Scale(init, c)|;
      assert forall k :: 0 <= k < |init| ==> scaled[..|vs| - 1][k] == Scale(init, c)[k];
      assert scaled[..|vs| - 1] == Scale(init, c);
      calc {
        Sum(scaled);
        Sum(Scale(init, c)) + vs[|vs| - 1] * c;
        Sum(init) * c + vs[|vs| - 1] * c;
        (Sum(init) + vs[|vs| - 1]) * c;
        Sum(vs) * c;
      }
    }
  }

  /** With a positive total, the normalised volumes sum to exactly 1. */
  lemma NormalizedSumIsOne(harmonicVolumes: seq<real>)
    requires Sum(harmonicVolumes) > 0.0
    ensures Sum(Normalize(harmonicVolumes)) == 1.0
  {
    SumScaled(harmonicVolumes, Normalizer(harmonicVolumes));
  }

  /** With a total that is not positive, every volume passes through unchanged. */
  lemma SilentVolumesUnchanged(harmonicVolumes: seq<real>)
    requires Sum(harmonicVolumes) <= 0.0
    ensures Normalize(harmonicVolumes) == harmonicVolumes
  {
  }

  /** Normalising keeps the volumes' proportions: the ratio of any two is unchanged. */
  lemma NormalizeKeepsProportions(harmonicVolumes: seq<real>, i: nat, k: nat)
    requires i < |harmonicVolumes| && k < |harmonicVolumes|
    ensures Normalize(harmonicVolumes)[i] * harmonicVolumes[k] == Normalize(harmonicVolumes)[k] * harmonicVolumes[i]
  {
    var n := Normalizer(harmonicVolumes);
    assert harmonicVolumes[i] * n * harmonicVolumes[k] == harmonicVolumes[k] * n * harmonicVolumes[i];
  }

  /** Releases every voice. */
  function Stop(b: Bank): (r: Bank)
    ensures r.Aligned() && |r.oscillators| == 0
  {
    EmptyBank
  }

  /** Replaces the bank with one voice per harmonic, scheduled from `now` at
      its normalised volume. The total is taken over every volume given. */
  function Play(b: Bank, harmonics: seq<real>, harmonicVolumes: seq<real>, dampingFactors: seq<real>,
                bpmValues: seq<real>, now: real): (r: Bank)
    requires |harmonicVolumes| >= |harmonics| && |dampingFactors| >= |harmonics| && |bpmValues| >= |harmonics|
    ensures r.Aligned() && |r.oscillators| == |harmonics|
    ensures forall i :: 0 <= i < |harmonics| ==>
              && r.oscillators[i].frequency == [SetValue(harmonics[i], now)]
              && r.gainNodes[i].gain
                 == Envelope(Normalize(harmonicVolumes)[i], dampingFactors[i], bpmValues[i], now, true)
  {
    var cleared := Stop(b);
    var normalizer := Normalizer(harmonicVolumes);
    var n := |harmonics|;
    var tones := seq(n, i requires 0 <= i < n => Oscillator([SetValue(harmonics[i], now)]));
    var gains := seq(n, i requires 0 <= i < n =>
                   GainNode(Envelope(harmonicVolumes[i] * normalizer, dampingFactors[i], bpmValues[i], now, true)));
    assert cleared.oscillators + tones == tones;
    assert cleared.gainNodes + gains == gains;
    Bank(cleared.oscillators + tones, cleared.gainNodes + gains)
  }

  /** Stopping twice is the same as stopping once. */
  lemma StopIdempotent(b: Bank)
    ensures Stop(Stop(b)) == Stop(b)
    ensures Stop(b) == EmptyBank
  {
  }

  /** Play does not depend on the voices it replaces. */
  lemma PlayReplacesAll(b1: Bank, b2: Bank, harmonics: seq<real>, harmonicVolumes: seq<real>,
                        dampingFactors: seq<real>, bpmValues: seq<real>, now: real)
    requires |harmonicVolumes| >= |harmonics| && |dampingFactors| >= |harmonics| && |bpmValues| >= |harmonics|
    ensures Play(b1, harmonics, harmonicVolumes, dampingFactors, bpmValues, now)
         == Play(b2, harmonics, harmonicVolumes, dampingFactors, bpmValues, now)
  {
  }

  /** When every harmonic sustains and the volumes have a positive total,
      the sustained gain levels of the voices add up to 1. */
  lemma SustainedLevelsSumToOne(b: Bank, harmonics: seq<real>, harmonicVolumes: seq<real>,
                                dampingFactors: seq<real>, bpmValues: seq<real>, now: real)
    requires |harmonicVolumes| == |harmonics| && |dampingFactors| >= |harmonics| && |bpmValues| >= |harmonics|
    requires forall i :: 0 <= i < |harmonics| ==> Sustains(dampingFactors[i], bpmValues[i])
    requires Sum(harmonicVolumes) > 0.0
    ensures var r := Play(b, harmonics, harmonicVolumes, dampingFactors, bpmValues, now);
            && (forall i :: 0 <= i < |harmonics| ==> |r.gainNodes[i].gain| == 1 && r.gainNodes[i].gain[0].SetValue?)
            && Sum(seq(|harmonics|, i requires 0 <= i < |harmonics| => r.gainNodes[i].gain[0].value)) == 1.0
  {
    var r := Play(b, harmonics, harmonicVolumes, dampingFactors, bpmValues, now);
    var levels := seq(|harmonics|, i requires 0 <= i < |harmonics| => r.gainNodes[i].gain[0].value);
    assert levels == Normalize(harmonicVolumes);
    NormalizedSumIsOne(harmonicVolumes);
  }

  /** A retrigger schedule has 300 calls for a positive damping factor and
      200 for a negative one, whose decay call is skipped. */
  lemma RetriggerCountByDampingSign(b: Bank, harmonics: seq<real>, harmonicVolumes: seq<real>,
                                    dampingFactors: seq<real>, bpmValues: seq<real>, now: real, i: nat)
    requires |harmonicVolumes| >= |harmonics| && |dampingFactors| >= |harmonics| && |bpmValues| >= |harmonics|
    requires i < |harmonics|
    requires bpmValues[i] != 0.0
    ensures var r := Play(b, harmonics, harmonicVolumes, dampingFactors, bpmValues, now);
            && (dampingFactors[i] > 0.0 ==> |r.gainNodes[i].gain| == 300)
            && (dampingFactors[i] < 0.0 ==> |r.gainNodes[i].gain| == 200)
            && (forall k :: 0 <= k < |r.gainNodes[i].gain| && dampingFactors[i] < 0.0 ==>
                  !r.gainNodes[i].gain[k].SetTarget?)
  {
    var r := Play(b, harmonics, harmonicVolumes, dampingFactors, bpmValues, now);
    if dampingFactors[i] != 0.0 {
      RetriggerCount(Normalize(harmonicVolumes)[i], dampingFactors[i], bpmValues[i], now, true);
    }
  }
}
